# POS front: cart and transaction state machine

A Dafny model of the point-of-sale page `Home` (`src/app/page.tsx`). An operator types a
product code. The page looks the product up and shows it. The operator adds it to the
purchase list (the cart), adjusts quantities, removes lines and finally submits the cart
as one purchase transaction. The model keeps the page's five pieces of state (`code`,
`product`, `error`, `cart`, `purchaseMessage`) as fields of the class `PosHome.Home`. Each
event handler is a method that changes those fields. The pure parts are functions with
lemmas about them: the `reduce` that gives the total, the positional `filter` used by
remove, the quantity update and the `map` into transaction items.

Files:
- `types.dfy` (`PosTypes`): `Product`, `CartItem`, `PurchaseItem`, `PurchaseRequest`,
  `PurchaseResponse`, and the outcome of the purchase call.
- `cart.dfy` (`CartLines`): the cart invariant (every quantity is at least 1), `Total`,
  `RemoveAt`, `ChangeQuantity` and the lemmas that connect them.
- `checkout.dfy` (`Checkout`): the fixed operational context `A001`/`00001`/`001`, the
  request built from a cart, the page's messages, and the decimal rendering of the
  charged amount.
- `home.dfy` (`PosHome`): the page controller class, plus four client walk-throughs that
  drive it through the handlers:
  - `TeaScenario`: a tea at 150 raised to three units totals 450, a later change to 0 is
    rejected, and a failed lookup leaves nothing to add.
  - `TwoLineScenario`: lines of 100 x 2 and 250 x 1 total 450.
  - `RemoveScenario`: removing line 0 of that cart leaves the 250 line and a total of 250.
  - `PurchaseScenario`: a refused purchase keeps both lines, a successful one empties the
    cart, and a purchase on the empty cart sends nothing.

The two HTTP calls are not performed. Each handler takes the call's outcome as a
parameter. For the lookup that is `Option<Product>` (`None` is the caught failure). For the
purchase it is `Threw` or `Responded(response)`. The handlers return what they would send:
the lookup URL, and the purchase request (`None` when nothing is sent).

Two edge cases of the code, and how the model treats them:
- Quantity update with an index that has no line (src/app/page.tsx:64): `newCart[index]` is
  `undefined`, so the assignment throws a TypeError before `setCart` runs. The cart stays as
  it was, and the model leaves it unchanged in that case.
- Purchase on an empty cart (src/app/page.tsx:76-79): the handler sets the empty-cart error
  and returns before clearing `purchaseMessage` or building a request. The model does the
  same.

## Model

| member | source | states |
|---|---|---|
| CartLines.Total | src/app/page.tsx:113 | the `reduce` over the lines, in exact integers: 0 for an empty cart, and the line's subtotal for a one-line cart |
| CartLines.FilterOutPosition | src/app/page.tsx:70 | the positional filter drops one line exactly when the index falls inside the lines it walks, and yields only lines of the input |
| CartLines.RemoveAt | src/app/page.tsx:70 | removal is one line shorter for an in-range index and the same length otherwise, and yields only lines of the cart |
| Checkout.BuildRequest | src/app/page.tsx:91-96 | the request carries the fixed context `A001`/`00001`/`001` and the cart's items, one per line |
| Checkout.IntToDecimal | src/app/page.tsx:103 | the amount as the template literal writes a safe integer (magnitude at most 2^53): a leading minus sign exactly for negative amounts, digits that read back to the amount, no leading zero, and "0" for zero |
| Checkout.SuccessMessage | src/app/page.tsx:103 | the confirmation is the fixed prefix, the amount exactly as `IntToDecimal` writes it (negative amounts included), and the yen sign; a non-negative amount reads back from the text |
| PosHome.Home.TotalAmount | src/app/page.tsx:113 | the page's total is 0 for an empty cart and never negative while every quantity is at least 1 and no price is negative |
| CartLines.TotalConcat | src/app/page.tsx:113 | the total is additive over concatenation, so it is the sum of `price * quantity` over the lines (and 0 for the empty cart) |
| CartLines.TotalFirstLine | src/app/page.tsx:113 | the left-to-right `reduce` agrees with summing from the front: first line's subtotal plus the rest |
| CartLines.TotalNonNegative | src/app/page.tsx:113 | for every cart: when every quantity is at least 1 and no price is negative, the total is non-negative and at least every line's subtotal |
| CartLines.FilterOutPositionSpec | src/app/page.tsx:70 | the positional filter from offset `k` drops exactly the element at `index - k` when it exists, else keeps everything |
| CartLines.RemoveAtSpec | src/app/page.tsx:69-72 | remove drops exactly the line at `index` and keeps the others in order, so the length shrinks by one; an out-of-range index leaves the cart unchanged |
| CartLines.TotalAround | src/app/page.tsx:113 | the total splits around any line into the total before it, its subtotal, and the total after it |
| CartLines.TotalAfterRemove | src/app/page.tsx:70 | after a remove the total drops by exactly the removed line's subtotal |
| CartLines.RemoveKeepsQuantitiesPositive | src/app/page.tsx:69-72 | removal preserves the invariant that every quantity is at least 1 |
| CartLines.ChangeQuantity | src/app/page.tsx:61-66 | a quantity below 1 or an index with no line leaves the cart unchanged; otherwise only that line's quantity changes, and the length, the order, the other lines and every product stay as they were |
| CartLines.ChangeKeepsQuantitiesPositive | src/app/page.tsx:62 | the silent rejection of quantities below 1 preserves the invariant |
| CartLines.TotalAfterReplace | src/app/page.tsx:113 | replacing one line changes the total by the difference of the two subtotals |
| CartLines.TotalAfterChange | src/app/page.tsx:63-65 | a valid update moves the total by the unit price times the change in quantity |
| CartLines.RejectedChangesAreNoOps | src/app/page.tsx:62 | any sequence of updates with quantities below 1 leaves the cart exactly as if none were made |
| Checkout.ToPurchaseItems | src/app/page.tsx:84-89 | one transaction item per cart line, in cart order, carrying the line's `prd_id`, `code`, `name` and `price` |
| Checkout.RequestDependsOnlyOnProducts | src/app/page.tsx:84-96 | the request has the fixed context `A001`/`00001`/`001` and one item per line, and is the same for any two carts that hold the same products, whatever the quantities |
| Checkout.QuantityNotTransmitted | src/app/page.tsx:15-20 | three teas at 150 (total 450) send exactly the request of one tea (total 150): the quantity never reaches the backend |
| Checkout.NatToDecimal | src/app/page.tsx:103 | the rendered amount is a non-empty string of decimal digits, with no leading zero for a positive amount |
| Checkout.DecimalRoundTrip | src/app/page.tsx:103 | reading the rendered digits back gives the amount |
| PosHome.Home.constructor | src/app/page.tsx:33-37 | the page starts with an empty code, no product, no error, an empty cart and no message |
| PosHome.Home.EnterCode | src/app/page.tsx:140 | the code input replaces `code` and nothing else |
| PosHome.Home.ReadProduct | src/app/page.tsx:40-49 | the lookup asks for the current code; afterwards the product is the lookup's result and the error is set exactly when no product was found; the cart and the code are untouched |
| PosHome.Home.AddToCart | src/app/page.tsx:52-58 | with no product shown nothing changes; otherwise the product is appended as the last line with quantity 1 (earlier lines unchanged), the product and the code are cleared, and the total grows by the price |
| PosHome.Home.ChangeLineQuantity | src/app/page.tsx:61-66 | the cart becomes `ChangeQuantity` of the old cart; a quantity below 1 changes nothing; a valid change moves the total by price times the quantity change; every quantity stays at least 1 |
| PosHome.Home.RemoveItem | src/app/page.tsx:69-72 | the cart loses exactly the line at `index`, keeping order, and the total drops by its subtotal; an out-of-range index changes nothing |
| PosHome.Home.Purchase | src/app/page.tsx:75-111 | an empty cart sets the empty-cart error and sends nothing; otherwise the request built from the cart is sent; on success the cart empties and the message shows the charged amount; on a refusal or a failed call the cart is unchanged and the error is set |

## Left out

- CartLines.ChangeQuantity: for an index with no line the source throws an uncaught
  TypeError out of the change handler. The model returns with the cart unchanged and does
  not represent the exception.
- Checkout.IntToDecimal: the rendering matches `${n}` only for |n| <= 2^53. `total_amt` is a
  JavaScript number (an IEEE double). Above 2^53, `${n}` prints the shortest digits that
  round-trip, padded with zeros (2^64 prints as 18446744073709552000), and from 10^21 on it
  uses exponent notation. The model writes the exact digits of every integer.
- CartLines.Total: amounts here are exact integers, while the page's `price * quantity` and
  its running sum are doubles, exact only up to 2^53. A line priced 2^53 plus a line priced 1
  totals 2^53 on the page and 2^53 + 1 in the model. The same holds for every lemma about
  `Total`.
- The JSX rendering, the auto-focus effect and the Enter-key wiring are presentation. The
  code input's change handler is kept as `EnterCode`.
- The HTTP calls themselves, their transport, and the `console.log` of the request. Outcomes
  are parameters, and requests are returned rather than sent.
- `Number(...)` parsing of the quantity input. Quantities and prices are integers here, so the
  quirks of fractional values and `NaN` are not modelled (`NaN` passes the `< 1` check).
- `toLocaleString` in the display. The success message renders `total_amt` as a decimal
  integer (see `Checkout.IntToDecimal` above for where that differs from the page).
- Races between overlapping lookups or purchases. Each handler runs to completion.
- The in-place write `newCart[index].quantity = ...`. The copied array shares its line objects
  with the old cart, so the write also changes the old state's object. The model updates a
  sequence of values, so this aliasing is not captured.
- Prices are not checked anywhere in the code. Non-negativity is a hypothesis of
  `CartLines.TotalNonNegative`, not an invariant of the page.
