# Cart store model

A Dafny model of the storefront's client-side cart store (`CartProvider` in
`src/context/CartContext.jsx`). The store owns an ordered list of line items
and exposes three mutations (`addToCart`, `removeFromCart`, `clearCart`),
four derived values (`subtotal`, `tax`, `total`, `count`), a restore step
that reads the persisted list on startup, and a write-through of the list
to the persisted value after every change.

Each mutation is modelled as a pure function from the previous item list to
the next one, exactly as the source's `setItems(prev => ...)` updaters are.
Money is integer cents: a price of 19.99 is `1999`. `Math.round(x)` is
`floor(x + 1/2)` (halves go toward positive infinity), so
`Math.round(subtotal * 0.1 * 100) / 100` becomes, in cents,
`MathRound(subtotal, 10)`, and the total is `MathRound(subtotal + tax, 1)`,
which is exactly `subtotal + tax`.

Files and modules:

- `wrappers.dfy` (`Wrappers`): the `Option` datatype.
- `line_items.dfy` (`LineItems`): `Product`, `LineItem`, `Cart = seq<LineItem>`,
  the `findIndex` lookup and the invariants "no two lines share an id" and
  "every quantity is positive".
- `cart_ops.dfy` (`CartOps`): the three mutations and their properties.
- `totals.dfy` (`Totals`): the folds for subtotal and count, rounding, tax and
  total, and the loops that run the `reduce` calls.
- `restore.dfy` (`Restore`): restoring the list from the stored text.
- `cart_store.dfy` (`CartStore`): actions, runs of actions, the effect of each
  mutation on the derived values, worked examples, and write-through persistence.

In these places the code behaves differently from what a caller might assume; the model follows the code:

- `addToCart` does not check its amount. The model takes any integer and proves
  that positive quantities stay positive only when the amount is positive.
- `removeFromCart` filters out every line with the id, not only one. Under the
  "no duplicate ids" invariant this deletes exactly one line (`RemoveDeletesTheLine`).
- The rounding is `Math.round`, which sends halves toward positive infinity,
  not away from zero. The two agree whenever the subtotal is non-negative.
- The restored value is not validated. The model takes the list as stored, even
  when it holds duplicate ids or non-positive quantities. `addToCart` is therefore
  defined on any list and updates the first matching line, as `findIndex` does.

## Model

| member | source | states |
|---|---|---|
| LineItems.FindIndex | src/context/CartContext.jsx:23 | The lookup returns the first index whose id matches, or -1 exactly when no line has the id. |
| LineItems.FindIndexIsOnlyMatch | src/context/CartContext.jsx:23 | In a cart without duplicate ids, the line found is the only line carrying that id. |
| CartOps.AddToCart | src/context/CartContext.jsx:21-31 | When the id is present, the first matching line gains `qty` and keeps its title, price and image, and every other line is unchanged. When the id is absent, the old lines are a prefix and one line built from the product with quantity `qty` is appended. |
| CartOps.RemoveFromCart | src/context/CartContext.jsx:33-35 | No line with the id remains. A line is kept exactly when it was in the cart and has a different id. The cart is unchanged exactly when the id was absent. |
| CartOps.ClearCart | src/context/CartContext.jsx:37 | Clearing yields the empty list whatever the cart held. |
| CartOps.Bump | src/context/CartContext.jsx:26 | The updated line keeps the id, title, price and image of the old line, and its quantity grows by the amount. |
| CartOps.AddPreservesUniqueIds | src/context/CartContext.jsx:21-31 | Adding keeps the invariant that no two lines share an id. |
| CartOps.AddLengthChange | src/context/CartContext.jsx:24-29 | Adding a present id never grows the list; adding an absent id grows it by exactly one. |
| CartOps.AddPreservesPositiveQuantities | src/context/CartContext.jsx:21-31 | With a positive amount, every quantity stays positive. |
| CartOps.AddTwiceMerges | src/context/CartContext.jsx:21-31 | On an empty cart, `add(P, n)` then `add(P, m)` gives one line for P with quantity `n + m`. |
| CartOps.ReAddKeepsCapturedFields | src/context/CartContext.jsx:23-27 | Re-adding a product whose title, price or image has changed keeps the line captured first; only its quantity moves. |
| CartOps.RemoveKeepsOrder | src/context/CartContext.jsx:34 | The remaining lines appear in the same relative order as before. |
| CartOps.RemoveIdempotent | src/context/CartContext.jsx:34 | Removing the same id twice gives the same cart as removing it once. |
| CartOps.RemoveAppend | src/context/CartContext.jsx:34 | Removal distributes over concatenating two carts. |
| CartOps.RemoveDeletesTheLine | src/context/CartContext.jsx:33-35 | In a cart without duplicate ids, removing a present id deletes exactly that one line and closes the gap. |
| CartOps.RemovePreservesUniqueIds | src/context/CartContext.jsx:33-35 | Removal keeps the invariant that no two lines share an id. |
| CartOps.RemovePreservesPositiveQuantities | src/context/CartContext.jsx:34 | Removal keeps every quantity positive. |
| CartOps.RemoveUndoesFreshAdd | src/context/CartContext.jsx:29-34 | Removing a product that was just appended as a new line restores the cart that existed before the add. |
| Totals.SumNonNegative | src/context/CartContext.jsx:39-42 | The left-to-right `reduce` from 0 over non-negative terms is non-negative. |
| Totals.SumSnoc | src/context/CartContext.jsx:39-42 | Each step of the `reduce` adds the next line's term to the running sum. |
| Totals.MathRound | src/context/CartContext.jsx:40-41 | `Math.round(num / den)` lies within half a unit of `num / den`, with halves rounding up. |
| Totals.MathRoundUnique | src/context/CartContext.jsx:40-41 | That rounded value is the only integer meeting this bound, in both directions. |
| Totals.TaxCharacterisation | src/context/CartContext.jsx:40 | The tax in cents is `t` exactly when `10t - 5 <= subtotal < 10t + 5`: a tenth of the subtotal, rounded once, halves up. |
| Totals.TotalIsSubtotalPlusTax | src/context/CartContext.jsx:41 | Rounding the total changes nothing: total equals subtotal plus tax, to the cent. |
| Totals.TaxBounds | src/context/CartContext.jsx:40 | For a non-negative subtotal, the tax lies between 0 and the subtotal. |
| Totals.RoundingOnceDiffersFromPerLine | src/context/CartContext.jsx:39-40 | Tax is rounded once on the whole subtotal: two 5-cent lines are taxed 1 cent together, not 1 + 1 cents line by line. |
| Totals.SumAppend | src/context/CartContext.jsx:39-42 | The reduction over two concatenated carts is the sum of the two reductions. |
| Totals.SumRemoveAt | src/context/CartContext.jsx:39-42 | Taking one line out of the reduction subtracts exactly that line's term. |
| Totals.SumUpdate | src/context/CartContext.jsx:39-42 | Replacing one line changes the reduction by the difference between the old and new terms. |
| Totals.SumPermutation | src/context/CartContext.jsx:39-42 | Any rearrangement of the same lines gives the same reduction. |
| Totals.SubtotalIgnoresOrder | src/context/CartContext.jsx:39-42 | Subtotal, tax, total and count do not depend on line order. |
| Totals.TotalsNonNegative | src/context/CartContext.jsx:39-42 | With positive quantities, subtotal and tax are non-negative, total is at least subtotal, and count is at least the number of lines. |
| Totals.CountAtLeastLength | src/context/CartContext.jsx:42 | With positive quantities, the count is at least the number of lines. |
| Totals.ComputeSubtotal | src/context/CartContext.jsx:39 | Running the subtotal `reduce` as a loop over the lines yields the sum of price times quantity. |
| Totals.ComputeCount | src/context/CartContext.jsx:42 | Running the count `reduce` as a loop yields the sum of the quantities. |
| Restore.RestoreAsWritten | src/context/CartContext.jsx:6-13 | The source's restore: an absent or empty stored text gives the empty list, and so does a failed parse. Otherwise the parsed value is used, whatever it is. |
| Restore.StoredNullIsNotACart | src/context/CartContext.jsx:9 | A stored `null` parses successfully, and the item state it yields is not a list. |
| Restore.Restore | src/context/CartContext.jsx:6-13 | The corrected restore never fails. It returns either the empty cart or exactly the stored list. It returns the stored list whenever one was parsed, and the empty cart when nothing is stored, parsing fails, or the parsed value is not a list. |
| Restore.RestoreAgreesWithSource | src/context/CartContext.jsx:6-13 | The corrected restore agrees with the source's exactly when the source's restore yields a list. |
| Restore.PersistThenRestore | src/context/CartContext.jsx:6-19 | If parsing reads back what serialising wrote, restoring the persisted text returns the same lines in the same order. |
| CartStore.Apply | src/context/CartContext.jsx:21-37 | After clear the cart is empty. After remove the id is absent. After add the id is present. |
| CartStore.ApplyPreservesUniqueIds | src/context/CartContext.jsx:21-37 | Each single mutation keeps the invariant that no two lines share an id. |
| CartStore.RunPreservesUniqueIds | src/context/CartContext.jsx:21-37 | For any sequence of adds, removes and clears, the cart never holds two lines with the same id. |
| CartStore.RunPreservesPositiveQuantities | src/context/CartContext.jsx:21-37 | A run whose adds all ask for positive amounts keeps every quantity positive. |
| CartStore.AddRaisesCount | src/context/CartContext.jsx:21-42 | Adding raises the count by exactly the amount added. |
| CartStore.AddRaisesSubtotal | src/context/CartContext.jsx:21-39 | Adding raises the subtotal by the amount times the price held for that product. For an existing line that is its captured price; for a new line it is the product's price. |
| CartStore.LineTotalRaise | src/context/CartContext.jsx:26 | Raising one line's quantity raises its total by price times the added amount. |
| CartStore.AddExistingRaisesSubtotal | src/context/CartContext.jsx:23-27 | Adding to an existing line raises the subtotal by that line's captured price times the amount. |
| CartStore.AddNewRaisesSubtotal | src/context/CartContext.jsx:29 | Appending a new line raises the subtotal by the product's price times the amount. |
| CartStore.RemoveLowersTotals | src/context/CartContext.jsx:33-42 | In a cart without duplicate ids, removing a present id lowers the count by that line's quantity and the subtotal by that line's price times quantity. |
| CartStore.ClearZeroesTotals | src/context/CartContext.jsx:37-42 | After clearing, subtotal, tax, total and count are all 0. |
| CartStore.ScenarioReAdd | src/context/CartContext.jsx:21-41 | Adding a 10.00 product once and then twice more gives one line of quantity 3. Its subtotal is 30.00, tax 3.00, total 33.00 and count 3. |
| CartStore.ScenarioTwoLines | src/context/CartContext.jsx:39-41 | Lines of 19.99 x 1 and 5.00 x 3 give subtotal 34.99, tax 3.50 and total 38.49. |
| CartStore.Dispatch | src/context/CartContext.jsx:15-19 | A mutation always updates the in-memory items. A successful write persists exactly the new items. A failed write is swallowed and the persisted text stays as it was. |
| CartStore.Start | src/context/CartContext.jsx:6-19 | The startup with the corrected restore (a stored value that is not a list gives the empty cart, where the source keeps it). The items are exactly the stored list when one was parsed, and otherwise empty. A successful first write persists them; a failed one leaves the stored text as it was. |
| CartStore.RestartObservesLatestItems | src/context/CartContext.jsx:6-19 | After a mutation whose write succeeded, a restart restores exactly the current items. |

## Left out

- Browser storage I/O (`localStorage.getItem` / `setItem` under the key `cart-items`): the stored text is an input of the restore step. The write-through is modelled only as "the persisted text is the serialised current items, or unchanged when the write fails".
- `JSON.parse` and `JSON.stringify`: both are parameters. The round-trip lemmas assume that parsing reads back what serialising wrote.
- React machinery: `useState`, `useMemo`, `useEffect`, the context provider, and the `useCart` throw when it is used outside the provider. This is framework plumbing with no cart logic.
- Floating-point money and the `Number(i.price)` coercion: prices are integer cents, so binary floating-point rounding artefacts are not modelled.
- Product fields the spread `{...product, quantity: qty}` also copies, such as description, rating and category: the cart never reads them.
- Restored lines with missing or non-numeric fields: the model's stored list is always well typed. Only a stored value that is not a list at all is modelled.
- CartStore.Dispatch: writes once per mutation. The source writes from an effect after each render, so updates React batches into one render share a single write of the final items, which is the same persisted value.
- `placeOrder` in src/pages/Cart.jsx: the order request, alert and navigation are network and UI. Its payload is a projection of the items. It calls `clearCart()` after any response whose body parses as JSON, because the response status is never checked, so an error reply with a JSON body also empties the cart.
- src/pages/Catalog.jsx, src/pages/ProductDetail.jsx, src/components/Layout.jsx, src/main.jsx and src/App.jsx: data fetching, URL building, routing and markup.

## Findings

| source | as written | input that shows it | evidently intended | confidence | as-written member | corrected member |
|---|---|---|---|---|---|---|
| src/context/CartContext.jsx:9 | The restore keeps any successfully parsed value as the item state, even one that is not a list. The `reduce` on line 39 then throws while the provider renders. | Stored text `null` (or `0`, or `{}`) under the cart key | A value that is not a list is treated like unparsable data, giving the empty cart | medium, not executed | Restore.RestoreAsWritten, Restore.StoredNullIsNotACart | Restore.Restore |
