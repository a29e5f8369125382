# Checkout state machine of the `CodeInput` page

This project models the `CodeInput` component of a single-page point-of-sale
screen. The shop assistant types a product code, reads the product for that
code from a remote API, adds the pending product to a purchase list, and
finally checks out, which empties the list.

The component holds three pieces of state:

- `code`: the entered product code.
- `product`: the pending product, absent or a name and price pair.
- `purchaseList`: the ordered list of added products.

Four handlers change that state.

- `Page.CodeInput` is a class with these three fields. It has one
  `modifies this` method per handler.
- Module `Checkout` gives the same handlers as pure transitions on a `State`
  value. Each method is proved to move the fields from `old(Snapshot())` to
  the transition's result. Every method also keeps the object invariant
  `Valid()`: whatever is pending or listed has a non-empty name. The handler
  bodies do not need this invariant; it is kept so that callers can rely on
  it.
- The lemmas about `Checkout` cover whole sequences of user events (`Run`).
  They show that repeated cycles append separate entries, that the invariant
  holds, and that no product appears without a lookup that passed the format
  check.
- Module `Scenarios` states and proves a few concrete cases: "1001" answered
  with Tea at 150, a 404 answer, and an empty code.

The network request is not performed. The handler receives a `LookupOutcome`
instead:

- `NotOk(status)` is a response whose `ok` flag is false.
- `Ok(name, price)` is a parsed body. `name == None` stands for a missing or
  falsy product name (`undefined`, `null`, `""`, `0`, `false`). `price == None` stands for "`Number(product_price)`
  is NaN".

The API base URL is a plain string parameter. The empty string means it is
not configured.

The code rejects only a NaN price (src/app/page.tsx:44). The model checks
neither finiteness nor sign, so negative prices are accepted.

## Model

| member | source | states |
|---|---|---|
| Checkout.Lookup | src/app/page.tsx:39-51 | a product results exactly when the response is ok, the name is present and non-empty, and the price converts to a number; the product then carries that name and numeric price; every other outcome gives none |
| Checkout.InputChange | src/app/page.tsx:19-21 | the code becomes exactly the typed value; the pending product and the list are unchanged |
| Checkout.ReadCode | src/app/page.tsx:23-60 | with no API URL or an empty code, the whole state is unchanged; a non-ok response clears the pending product; an ok response sets a product iff the body passes the format check and clears it otherwise; the code and the list never change |
| Checkout.AddToList | src/app/page.tsx:62-68 | with nothing pending, the state is unchanged; otherwise the list grows by one, its earlier entries are kept in order, the pending product is the new last entry, and the pending product and the code are cleared |
| Checkout.Purchase | src/app/page.tsx:70-73 | the list is empty afterwards, whatever it held; the code and the pending product are unchanged |
| Checkout.RunAppend | src/app/page.tsx:19-73 | handling events a and then b ends in the same state as handling a + b |
| Checkout.ScanAndAddAppends | src/app/page.tsx:19-67 | typing a non-empty code, reading a well-formed product for it and adding it leaves exactly the old list with that product appended, nothing pending and an empty code |
| Checkout.RepeatedCycles | src/app/page.tsx:63-67 | n such cycles with the same product add n entries after the earlier ones, all equal to that product; entries are never merged |
| Checkout.RunPreservesWellFormed | src/app/page.tsx:44-51 | any sequence of events keeps the invariant that the pending product and every list entry have a non-empty name |
| Checkout.RunOnlyHoldsAccepted | src/app/page.tsx:48-51 | after any sequence of events, every pending or listed product was already held or is the product of a lookup in that sequence that passed the format check |
| Scenarios.TeaIsAdded | src/app/page.tsx:44-67 | code "1001" answered with Tea at 150 makes Tea pending; adding it gives the list [Tea 150], an empty code and nothing pending |
| Scenarios.NotFoundLeavesNothingPending | src/app/page.tsx:39-40 | a 404 answer leaves nothing pending and the list unchanged |
| Scenarios.EmptyCodeAborts | src/app/page.tsx:28-31 | reading with an empty code changes nothing, whatever the lookup would have answered |
| Page.CodeInput.constructor | src/app/page.tsx:12-14 | the component starts with an empty code, nothing pending and an empty list |
| Page.CodeInput.HandleInputChange | src/app/page.tsx:19-21 | the fields move as `Checkout.InputChange` says; the invariant is kept |
| Page.CodeInput.HandleReadCode | src/app/page.tsx:23-60 | the early returns, the failure paths and the success path move the fields as `Checkout.ReadCode` says; the invariant is kept |
| Page.CodeInput.HandleAddToList | src/app/page.tsx:62-68 | the fields move as `Checkout.AddToList` says; the invariant is kept |
| Page.CodeInput.HandlePurchase | src/app/page.tsx:70-73 | the fields move as `Checkout.Purchase` says; the invariant is kept |

## Left out

- The `fetch` call, its headers, the URL template and the parsing with `response.json()` are network I/O. The `LookupOutcome` parameter stands for their result.
- An exception thrown by `fetch` or `response.json()` is not a separate outcome. It is encoded as `NotOk` with an arbitrary status, which has the same effect: the pending product is cleared.
- A truthy `product_name` that is not a string (`42`, `true`, an object) passes the check at src/app/page.tsx:44 and is stored by line 49. It has no counterpart in the model, because `Product.name` is a `string`.
- JavaScript's coercions are not modelled. This covers the truthiness of `product_name` and `Number(...)` with `isNaN`. A name is "present and non-empty" or not, and a price converts to a number or not.
- A price is a `real`. Infinity, which `Number` can produce and the check accepts, is not represented. Floating-point rounding is not modelled.
- Reading the environment variable for the API URL is not modelled. The URL is a string parameter.
- The `console` logging and the blocking `alert` on checkout are not modelled. They change no state.
- React's `useState` mechanics are not modelled. Neither are stale closures or overlapping lookups, where the response that resolves last wins. Each handler is one atomic step.
- The JSX rendering is not modelled. This includes the product card, the `円` price format and the list display.
