# Tenun Pringgasela shop cart, modelled in Dafny

This project models the core of the Tenun Pringgasela storefront's `script.js`. The storefront sells woven cloth (tenun). The core has three parts:

- **The line-item store.** This is the in-memory `cart` array. Product buttons add to it or increment an entry, the quantity controls change an entry's quantity, the remove button deletes an entry, and checkout clears it.
- **The pricing engine.** It computes the subtotal (price times quantity, summed), the item count shown on the badge, and the shipping tier table. Only the inter-regional region costs anything: 25 000 for regular, 50 000 for fast and 100 000 for cargo.
- **The checkout composer.** It refuses an empty cart. Otherwise it builds the order message. The message holds the customer's data, one line per entry joined by the literal text `%0A`, the subtotal, shipping and total, the shipping label and the payment label. The message goes behind the fixed chat address `https://wa.me/6282359486948?text=`.

The model is split into modules:

- `LineItems` (lineitems.dfy) holds the entry datatype and says what each store operation does to the ordered sequence of entries. These functions are the specification. The store invariant is that ids are unique and every quantity is at least 1.
- `Pricing` (pricing.dfy) holds the sums, the tier table and the totals.
- `Format` (format.dfy) renders integers. Plain decimal text is used for quantities. Indonesian grouping (`150000` shown as `150.000`) is used for rupiah amounts. Each rendering has a parser that reads it back.
- `Checkout` (checkout.dfy) holds the item lines, the join, the labels, the message and `Compose`, the pure composition of the handoff address.
- `Shop` (shop.dfy) holds `class Cart`, whose `items` field the handlers update in place. Every method is proved against the `LineItems`, `Pricing` or `Checkout` function that specifies it. Every method keeps the store invariant when it held before.

## Model

| member | source | states |
|---|---|---|
| LineItems.Ids | script.js:150 | the set holds exactly the ids some entry carries |
| LineItems.IndexOf | script.js:150 | the position of the first entry with the id, or -1 exactly when no entry carries it (what `find` and `findIndex` look up) |
| LineItems.RemoveAt | script.js:281 | `splice(i, 1)` shortens the cart by one, keeps the entries before `i` and shifts those after it down by one |
| LineItems.Without | script.js:278-284 | reference filter for removal: no entry with the id is left, every other id is carried afterwards exactly when it was before, and the cart does not grow |
| LineItems.Bump | script.js:153 | definition of the in-place quantity change at a position, used for `quantity++` here and `quantity += change` at line 269; its properties are in `IndexOfBump`, `SumsBump` and `WithoutBump` |
| LineItems.AddItem | script.js:150-176 | definition of add-or-increment; its properties are in `AddItemEffect`, `AddItemKeepsValid`, `AddItemIds`, `AddTimesKnown`, `AddTimesNew` and `SumsAfterAdd` |
| LineItems.ChangeQuantity | script.js:266-276 | definition of the quantity change with removal at 0 or less; its properties are in `ChangeQuantityEffect`, `ChangeQuantityKeepsValid`, `RemoveBumped` and `SumsAfterChange` |
| LineItems.RemoveId | script.js:278-284 | definition of removal by `findIndex` and `splice`; its properties are in `RemoveIdIsWithout`, `RemoveIdEffect` and `SumsAfterRemove` |
| LineItems.AddItemEffect | script.js:150-176 | a known id keeps the length and only its entry gains one unit; an unknown id appends one entry of quantity 1 at the end and leaves the prefix unchanged |
| LineItems.AddItemKeepsValid | script.js:150-176 | add-or-increment keeps ids unique and quantities at 1 or more |
| LineItems.AddItemIds | script.js:150-176 | after an add the set of ids is the old set plus the added id |
| LineItems.IndexOfBump | script.js:153 | changing a quantity in place moves no entry's position |
| LineItems.AddTimesKnown | script.js:150-153 | adding a product already in the cart `n` times raises its quantity by `n`, with no new entry |
| LineItems.AddTimesNew | script.js:150-176 | adding a new product `n >= 1` times gives exactly one entry at the end with quantity `n` |
| LineItems.RemoveIdIsWithout | script.js:278-284 | in a cart with unique ids, removal by id equals the filter: exactly that entry goes and the others keep their relative order |
| LineItems.RemoveAtKeepsValid | script.js:281 | splicing an entry out of a valid cart leaves a valid cart |
| LineItems.RemoveIdEffect | script.js:278-284 | removal keeps the invariant, takes exactly the id out of the id set, and an unknown id changes nothing |
| LineItems.ChangeQuantityKeepsValid | script.js:266-276 | a quantity change keeps the invariant, because a quantity reaching 0 or less removes the entry |
| LineItems.ChangeQuantityEffect | script.js:266-276 | the id survives exactly when it was present and its new quantity is positive; a surviving entry stays at its position with its name, price and image and with quantity old plus change, and the length is unchanged; all other entries are untouched and keep their order |
| LineItems.RemoveBumped | script.js:269-271 | the removal after an in-place decrement finds the same position and removes the original entry |
| LineItems.DecrementLastUnitEmpties | script.js:266-272 | a cart with one entry of quantity 1 is empty after a change of -1 |
| Pricing.LineTotal | script.js:224 | definition of one entry's contribution, price times quantity; its properties are in `SumsBump` and `SubtotalBounds` |
| Pricing.Subtotal | script.js:306 | definition of the sum of line totals; its properties are in `SubtotalConcat`, `SumsSnoc`, the `Sums*` lemmas and `SubtotalBounds` |
| Pricing.ItemCount | script.js:225 | definition of the badge count, the sum of quantities; its properties are in `ItemCountAtLeastEntries` and the `Sums*` lemmas |
| Pricing.ShippingCost | script.js:307-314 | free unless the region is "interlocal"; then 25000, 50000 or 100000 exactly for "regular", "fast" and "cargo", and 0 for any other service |
| Pricing.ComputeTotals | script.js:305-319 | the returned figures are the cart's subtotal, the shipping cost, and their sum as total |
| Pricing.SubtotalConcat | script.js:306 | the subtotal of two carts placed side by side is the sum of their subtotals |
| Pricing.SumsSnoc | script.js:223-225 | accumulating from the left, as the render loop and `reduce` do, adds one line total and one quantity per entry |
| Pricing.SumsBump | script.js:153 | moving one entry's quantity by `delta` moves the subtotal by `price * delta` and the count by `delta` |
| Pricing.SumsRemoveAt | script.js:281 | splicing an entry out takes its line total and quantity off the sums |
| Pricing.SumsAfterAdd | script.js:150-176 | one add raises the count by 1 and the subtotal by one unit price: the stored price for a known id, the button's price for a new one |
| Pricing.SumsAfterChange | script.js:266-276 | a surviving entry moves the subtotal by `price * change`; a removed entry takes its whole line total off; an unknown id changes nothing |
| Pricing.SumsAfterRemove | script.js:278-284 | removal takes the entry's line total and quantity off; an unknown id leaves the cart as it was |
| Pricing.ItemCountAtLeastEntries | script.js:225 | in a valid cart the badge count is at least the number of entries, and 0 exactly for the empty cart |
| Pricing.SubtotalBounds | script.js:224 | with non-negative prices the subtotal is non-negative and includes every entry's line total |
| Pricing.TotalBounds | script.js:318 | the total lies between the subtotal and the subtotal plus the cargo rate |
| Pricing.TwoOfOneTenun | script.js:150-153 | adding the same 150000 item twice gives one entry of quantity 2, subtotal 300000, and total 350000 with the fast inter-regional service |
| Format.FormatAmount | script.js:338 | definition of `toLocaleString('id-ID')` on integers; `FormatAmountRoundTrip` states that it reads back |
| Format.IntText | script.js:338 | definition of a quantity as template-literal text; `IntTextRoundTrip` states that it reads back |
| Format.Decimal | script.js:338 | plain decimal text is non-empty digits with no leading zero |
| Format.DecimalRoundTrip | script.js:338 | reading the decimal digits of `n` back gives `n` |
| Format.GroupedRoundTrip | script.js:338 | taking the thousands separators out of a grouped digit string gives the digits back |
| Format.GroupedShape | script.js:338 | grouped text holds only digits and separators and starts with a digit |
| Format.FormatAmountRoundTrip | script.js:338 | an amount formatted with Indonesian grouping parses back to the same integer, negative amounts included |
| Format.IntTextRoundTrip | script.js:338 | a quantity rendered by the template literal parses back to the same integer |
| Checkout.ItemLine | script.js:338 | definition of one itemisation line; `ItemLines` and `ItemsListAround` place it |
| Checkout.Join | script.js:338 | definition of `join`; `JoinConcat` and `JoinAround` state where separators go |
| Checkout.ItemsList | script.js:338 | definition of the itemisation block; `ItemsListConcat`, `ItemsListAround` and `TwoEntriesInOrder` state its order and separators |
| Checkout.ShippingLabel | script.js:345 | definition of the shipping label; `ShippingLabelMatchesCost` ties it to the cost |
| Checkout.Message | script.js:347 | definition of the message template; `ComposeShowsCart` states what it carries |
| Checkout.ItemLines | script.js:338 | one line per entry, in cart order, each built from that entry's name, quantity and price |
| Checkout.JoinConcat | script.js:338 | joining two non-empty runs of lines puts exactly one `%0A` between them |
| Checkout.ItemsListConcat | script.js:338 | the itemisation of two carts side by side is their two itemisations around one `%0A` |
| Checkout.ItemsListAround | script.js:338 | entry `k`'s line sits after the itemisation of the entries before it and before that of the entries after it, with one `%0A` on each side that has lines |
| Checkout.TwoEntriesInOrder | script.js:338 | two entries give their two lines in insertion order around one `%0A` |
| Checkout.PaymentLabel | script.js:340-343 | "Transfer Bank" exactly for "transfer", "E-Wallet" exactly for "ewallet", and cash on delivery for every other value |
| Checkout.ShippingLabelMatchesCost | script.js:345 | the "local" region is free and gets the local label; whenever shipping costs something, the label names the selected service |
| Checkout.FiguresReadBack | script.js:347 | the three figures in the message read back as the pricing engine's subtotal, its shipping cost and their sum |
| Checkout.Compose | script.js:330-349 | an empty cart is refused, and only an empty cart; every other cart yields an address that starts with the fixed chat prefix |
| Checkout.ComposeShowsCart | script.js:335-349 | the address of a non-empty cart is the chat prefix, the customer's data, the itemisation, then the subtotal, shipping cost and total between their fixed texts, then the labels; the three figures read back as the subtotal, the shipping cost and their sum |
| Shop.Cart.constructor | script.js:103 | the page starts with an empty, valid cart |
| Shop.Cart.FindIndex | script.js:279 | the linear search returns `IndexOf` of the current entries |
| Shop.Cart.Add | script.js:145-177 | the in-place add or append leaves `AddItem` of the old entries and keeps the invariant |
| Shop.Cart.UpdateQuantity | script.js:266-276 | the in-place change, followed by removal by id when the quantity drops to 0 or less, leaves `ChangeQuantity` of the old entries and keeps the invariant |
| Shop.Cart.Remove | script.js:278-284 | the splice leaves `RemoveId` of the old entries and keeps the invariant |
| Shop.Cart.Clear | script.js:355 | the cart is empty afterwards |
| Shop.Cart.RenderTotals | script.js:209-226 | the render loop's running total and count are the subtotal and item count of the cart |
| Shop.Cart.TotalWithShipping | script.js:305-319 | the figures equal `ComputeTotals` for the cart and the shipping selection |
| Shop.Cart.Submit | script.js:321-360 | the result is `Compose` of the cart before submission; a refused submission leaves the cart unchanged; a handoff empties it |

## Left out

- The DOM is not modelled. That covers the product cards, the toast, the cart modal, the slider and the navigation. `renderCart`'s markup and the three-way choice of image, background or placeholder are out too. Only the totals the renderer computes are modelled.
- The image capture at add time is a parameter. The `Image` value stands for the card's image address, else its placeholder's background style, else nothing. The card is not searched.
- `parseInt` of the data-price attribute is out. Prices are integers given to `Add`, so a `NaN` price cannot arise.
- JavaScript number arithmetic is modelled as unbounded integers. Precision loss above 2^53 is not modelled.
- `toLocaleString('id-ID')` is modelled for integers only. It inserts '.' every three digits and puts '-' before negative amounts.
- The shipping selectors' values and the selected service option's shown text are parameters (`region`, `service`, `serviceText`). The showing and hiding of the service selector is out.
- The write of the total into the page (script.js:262 and 317) is out. Only the computed figures are modelled.
- `window.open`, `alert`, the modal close and the form reset are out. `Submit` returns the address it would open, or `EmptyCartError` where the page shows its alert.
- The message is not URL-encoded beyond the literal `%0A` line breaks the code writes. The model follows the code: the customer's text is placed verbatim.
- The shipping label tests `region == "local"` while the cost tests `region == "interlocal"`. The model keeps both tests as written. A region value that is neither gets the out-of-region label at zero cost.
- The entries are values in a sequence. The object identity that lets `find` return an entry to be mutated in place is not modelled. The mutation is an update at the found position.
- Checkout.Compose: its own contract states only the refusal and the chat prefix. The message layout is stated in `ComposeShowsCart`, the itemisation's order and separators in `ItemsListAround`.
