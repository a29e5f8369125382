/** The checkout state machine of the `CodeInput` page component, as pure
    transitions over an explicit state value.  Each transition specifies one
    event handler of the component; the class in module Page implements the
    handlers on mutable fields and is proved against these functions. */
module Checkout {

  import opened Wrappers

  /** A product as the page stores it: the name and the numeric price taken
      from a lookup response. */
  datatype Product = Product(name: string, price: real)

  /** What the product lookup request produced, standing in for the network
      call.  `NotOk` is a response whose `ok` flag is false.  In `Ok`, `name`
      is `None` when the body has no usable `product_name`, and `price` is
      `None` when converting `product_price` to a number gives NaN. */
  datatype LookupOutcome =
    | NotOk(status: int)
    | Ok(name: Option<string>, price: Option<real>)

  /** The component's three pieces of state. */
  datatype State = State(code: string, product: Option<Product>, purchaseList: seq<Product>)

  /** The state when the page is first shown: no code, no pending product,
      an empty purchase list. */
  const Initial := State("", None, [])

  /** The format check applied to a successful response body: a non-empty
      product name and a price that converts to a number. */
  predicate WellFormedResponse(name: Option<string>, price: Option<real>)
  {
    name.Some? && name.value != "" && price.Some?
  }

  /** The product a lookup yields, or `None` when the request failed or the
      body did not pass the format check. */
  function Lookup(outcome: LookupOutcome): (r: Option<Product>)
    ensures r.Some? <==>
      outcome.Ok? && outcome.name.Some? && outcome.name.value != "" && outcome.price.Some?
    ensures r.Some? ==>
      r.value.name == outcome.name.value && r.value.price == outcome.price.value
  {
    match outcome
    case NotOk(_) => None
    case Ok(name, price) =>
      if WellFormedResponse(name, price) then Some(Product(name.value, price.value)) else None
  }

  /** Typing into the code field. */
  function InputChange(s: State, value: string): (r: State)
    ensures r.code == value
    ensures r.product == s.product && r.purchaseList == s.purchaseList
  {
    s.(code := value)
  }

  /** Pressing the read button: both guards leave the state alone, otherwise
      the pending product becomes the lookup's product, or is cleared on every
      failure path. */
  function ReadCode(s: State, apiUrl: string, outcome: LookupOutcome): (r: State)
    ensures r.code == s.code && r.purchaseList == s.purchaseList
    ensures apiUrl == "" || s.code == "" ==> r == s
    ensures apiUrl != "" && s.code != "" && outcome.NotOk? ==> r.product == None
    ensures apiUrl != "" && s.code != "" && outcome.Ok? ==>
      (r.product.Some? <==> WellFormedResponse(outcome.name, outcome.price))
    ensures apiUrl != "" && s.code != "" && r.product.Some? ==>
      outcome.Ok? && r.product.value == Product(outcome.name.value, outcome.price.value)
  {
    if apiUrl == "" || s.code == "" then s
    else s.(product := Lookup(outcome))
  }

  /** Pressing the add button: with a pending product, append it at the end of
      the list and clear both the pending product and the code; without one,
      nothing happens. */
  function AddToList(s: State): (r: State)
    ensures s.product.None? ==> r == s
    ensures s.product.Some? ==>
      && |r.purchaseList| == |s.purchaseList| + 1
      && r.purchaseList[..|s.purchaseList|] == s.purchaseList
      && r.purchaseList[|s.purchaseList|] == s.product.value
      && r.product == None
      && r.code == ""
  {
    if s.product.Some? then
      State("", None, s.purchaseList + [s.product.value])
    else
      s
  }

  /** Pressing the purchase button: the list is emptied whatever it held. */
  function Purchase(s: State): (r: State)
    ensures r.purchaseList == []
    ensures r.code == s.code && r.product == s.product
  {
    s.(purchaseList := [])
  }

  /** The user actions the component reacts to. */
  datatype Event =
    | Input(value: string)
    | ReadCodeClick(outcome: LookupOutcome)
    | AddClick
    | PurchaseClick

  function Step(s: State, apiUrl: string, e: Event): State
  {
    match e
    case Input(value) => InputChange(s, value)
    case ReadCodeClick(outcome) => ReadCode(s, apiUrl, outcome)
    case AddClick => AddToList(s)
    case PurchaseClick => Purchase(s)
  }

  /** The state after the events, handled one at a time in order. */
  function Run(s: State, apiUrl: string, events: seq<Event>): State
    decreases |events|
  {
    if events == [] then s else Run(Step(s, apiUrl, events[0]), apiUrl, events[1..])
  }

  lemma {:induction false} RunAppend(s: State, apiUrl: string, a: seq<Event>, b: seq<Event>)
    ensures Run(s, apiUrl, a + b) == Run(Run(s, apiUrl, a), apiUrl, b)
    decreases |a|
  {
    if a == [] {
      assert a + b == b;
    } else {
      assert (a + b)[0] == a[0];
      assert (a + b)[1..] == a[1..] + b;
      RunAppend(Step(s, apiUrl, a[0]), apiUrl, a[1..], b);
    }
  }

  /** One checkout cycle: enter a code, read it, add the product. */
  function ScanAndAdd(code: string, outcome: LookupOutcome): seq<Event>
  {
    [Input(code), ReadCodeClick(outcome), AddClick]
  }

  function Cycles(n: nat, code: string, outcome: LookupOutcome): seq<Event>
  {
    if n == 0 then [] else ScanAndAdd(code, outcome) + Cycles(n - 1, code, outcome)
  }

  /** One successful cycle appends exactly the looked-up product and leaves
      the input ready for the next one. */
  lemma ScanAndAddAppends(s: State, apiUrl: string, code: string, outcome: LookupOutcome)
    requires apiUrl != "" && code != "" && Lookup(outcome).Some?
    ensures Run(s, apiUrl, ScanAndAdd(code, outcome))
      == State("", None, s.purchaseList + [Lookup(outcome).value])
  {
    var events := ScanAndAdd(code, outcome);
    var s1 := InputChange(s, code);
    var s2 := ReadCode(s1, apiUrl, outcome);
    assert events[1..][1..][1..] == [];
    calc {
      Run(s, apiUrl, events);
      Run(s1, apiUrl, events[1..]);
      Run(s2, apiUrl, events[1..][1..]);
      Run(AddToList(s2), apiUrl, events[1..][1..][1..]);
    }
  }

  /** Repeating a successful cycle n times with the same code adds n separate
      entries, all equal to the looked-up product, after the earlier ones. */
  lemma {:induction false} RepeatedCycles(s: State, apiUrl: string, code: string, outcome: LookupOutcome, n: nat)
    requires apiUrl != "" && code != "" && Lookup(outcome).Some?
    ensures
      var r := Run(s, apiUrl, Cycles(n, code, outcome));
      && |r.purchaseList| == |s.purchaseList| + n
      && r.purchaseList[..|s.purchaseList|] == s.purchaseList
      && (forall i :: |s.purchaseList| <= i < |r.purchaseList| ==> r.purchaseList[i] == Lookup(outcome).value)
      && (n > 0 ==> r.product == None && r.code == "")
    decreases n
  {
    if n > 0 {
      var once := ScanAndAdd(code, outcome);
      RunAppend(s, apiUrl, once, Cycles(n - 1, code, outcome));
      ScanAndAddAppends(s, apiUrl, code, outcome);
      var s1 := Run(s, apiUrl, once);
      RepeatedCycles(s1, apiUrl, code, outcome, n - 1);
      var r := Run(s1, apiUrl, Cycles(n - 1, code, outcome));
      assert r.purchaseList[..|s.purchaseList|] == r.purchaseList[..|s1.purchaseList|][..|s.purchaseList|];
      assert r.purchaseList[|s.purchaseList|] == r.purchaseList[..|s1.purchaseList|][|s.purchaseList|];
      if n == 1 {
        assert Cycles(n - 1, code, outcome) == [];
      }
    }
  }

  /** The object invariant of the component: whatever is pending or in the
      list passed the format check, so its name is non-empty. */
  predicate WellFormed(s: State)
  {
    && (s.product.Some? ==> s.product.value.name != "")
    && forall i :: 0 <= i < |s.purchaseList| ==> s.purchaseList[i].name != ""
  }

  lemma {:induction false} RunPreservesWellFormed(s: State, apiUrl: string, events: seq<Event>)
    requires WellFormed(s)
    ensures WellFormed(Run(s, apiUrl, events))
    decreases |events|
  {
    if events != [] {
      RunPreservesWellFormed(Step(s, apiUrl, events[0]), apiUrl, events[1..]);
    }
  }

  /** Every product the events can bring in: the result of each lookup that
      passed the format check. */
  ghost function Accepted(events: seq<Event>): set<Product>
    decreases |events|
  {
    if events == [] then {}
    else
      (if events[0].ReadCodeClick? && Lookup(events[0].outcome).Some?
       then {Lookup(events[0].outcome).value} else {})
      + Accepted(events[1..])
  }

  /** The products a state holds, pending or listed. */
  ghost function Held(s: State): set<Product>
  {
    (set i | 0 <= i < |s.purchaseList| :: s.purchaseList[i])
    + (if s.product.Some? then {s.product.value} else {})
  }

  /** No product appears from nowhere: after any run, everything pending or
      listed was already held or came from a lookup that passed the check. */
  lemma {:induction false} RunOnlyHoldsAccepted(s: State, apiUrl: string, events: seq<Event>)
    ensures Held(Run(s, apiUrl, events)) <= Held(s) + Accepted(events)
    decreases |events|
  {
    if events != [] {
      var s1 := Step(s, apiUrl, events[0]);
      StepOnlyHoldsAccepted(s, apiUrl, events[0]);
      RunOnlyHoldsAccepted(s1, apiUrl, events[1..]);
    }
  }

  lemma StepOnlyHoldsAccepted(s: State, apiUrl: string, e: Event)
    ensures Held(Step(s, apiUrl, e)) <= Held(s) + Accepted([e])
  {
  }
}

/** Concrete cases of the state machine, stated and proved: one from the
    initial state, the others from any state. */
module Scenarios {

  import opened Wrappers
  import opened Checkout

  const ApiUrl := "https://api.example"

  /** Code "1001" answered with name "Tea" and price "150": the product is
      pending, then added as the only list entry. */
  lemma TeaIsAdded()
    ensures Run(Initial, ApiUrl, [Input("1001"), ReadCodeClick(Ok(Some("Tea"), Some(150.0)))])
      == State("1001", Some(Product("Tea", 150.0)), [])
    ensures Run(Initial, ApiUrl, [Input("1001"), ReadCodeClick(Ok(Some("Tea"), Some(150.0))), AddClick])
      == State("", None, [Product("Tea", 150.0)])
  {
  }

  /** Code "9999" answered with status 404: nothing is pending and the list
      is unchanged. */
  lemma NotFoundLeavesNothingPending(s: State)
    ensures var r := Run(s, ApiUrl, [Input("9999"), ReadCodeClick(NotOk(404))]);
      r.product == None && r.purchaseList == s.purchaseList
  {
  }

  /** Reading with an empty code changes nothing, whatever the lookup would
      have answered. */
  lemma EmptyCodeAborts(s: State, outcome: LookupOutcome)
    ensures Run(s, ApiUrl, [Input(""), ReadCodeClick(outcome)]) == s.(code := "")
  {
    var events := [Input(""), ReadCodeClick(outcome)];
    assert events[1..] == [ReadCodeClick(outcome)];
    assert events[1..][1..] == [];
    var cleared := InputChange(s, "");
    calc {
      Run(s, ApiUrl, events);
      Run(cleared, ApiUrl, events[1..]);
      Run(ReadCode(cleared, ApiUrl, outcome), ApiUrl, []);
      cleared;
    }
  }
}
