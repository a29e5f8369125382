/** The `CodeInput` page component: three state fields and the four event
    handlers that overwrite them.  Each handler is one atomic step; its new
    state is the matching transition of module Checkout applied to the old. */
module Page {

  import opened Wrappers
  import opened Checkout

  class CodeInput {
    var code: string
    var product: Option<Product>
    var purchaseList: seq<Product>

    /** The fields as one state value. */
    function Snapshot(): State
      reads this
    {
      State(code, product, purchaseList)
    }

    ghost predicate Valid()
      reads this
    {
      WellFormed(Snapshot())
    }

    constructor ()
      ensures Valid()
      ensures Snapshot() == Initial
    {
      code := "";
      product := None;
      purchaseList := [];
    }

    method HandleInputChange(value: string)
      requires Valid()
      modifies this
      ensures Valid()
      ensures Snapshot() == InputChange(old(Snapshot()), value)
    {
      code := value;
    }

    /** `apiUrl` is the configured base URL ("" when it is not set) and
        `outcome` what the request for the current code produced. */
    method HandleReadCode(apiUrl: string, outcome: LookupOutcome)
      requires Valid()
      modifies this
      ensures Valid()
      ensures Snapshot() == ReadCode(old(Snapshot()), apiUrl, outcome)
    {
      if apiUrl == "" {
        return;
      }
      if code == "" {
        return;
      }
      match outcome {
        case NotOk(_) =>
          product := None;
        case Ok(name, price) =>
          if !WellFormedResponse(name, price) {
            product := None;
          } else {
            product := Some(Product(name.value, price.value));
          }
      }
    }

    method HandleAddToList()
      requires Valid()
      modifies this
      ensures Valid()
      ensures Snapshot() == AddToList(old(Snapshot()))
    {
      if product.Some? {
        purchaseList := purchaseList + [product.value];
        product := None;
        code := "";
      }
    }

    method HandlePurchase()
      requires Valid()
      modifies this
      ensures Valid()
      ensures Snapshot() == Purchase(old(Snapshot()))
    {
      purchaseList := [];
    }
  }
}
