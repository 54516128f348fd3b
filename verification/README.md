# Museum souvenir shop: cart store and pricing engine

A Dafny model of the shopping cart of a museum souvenir storefront. The shop
page adds products to a cart kept in browser storage. The cart page shows the
cart with quantity controls and prices an invoice: item total, one discount,
flat shipping, tax, grand total.

The model has four modules:

- `Seqs` (`seqs.dfy`): the array searches the code relies on, stated once and
  generically. `FirstIndex` is `findIndex`/`find` and `Filter` is `filter`.
  Both come with lemmas on how filtering keeps order.
- `Pricing` (`pricing.dfy`): the volume-discount tier table and its
  first-match lookup, the member discount, and the invoice pipeline. A
  closed-form reference (`VolumeRate`, `EffectiveRate`) is proved to agree
  with them.
- `CartItems` (`cart_items.dfy`): line items `{id, name, unitPrice, qty,
  image}` in an ordered cart, and the operations on it. These are add (shop
  page), increment, decrement and remove. The module also holds the
  defensive filter, the item total and the badge item count. It proves the
  invariants that ids stay unique and quantities stay positive.
- `CartSession` (`cart_session.dfy`): the cart page's two globals
  (`applyMemberDiscount`, `activeDiscount`) and the stored cart, kept as one
  `State`. `render` is a function returning the new state and the invoice.
  Every user action is a step function. A browsing session is a run of steps.

Money is exact. Prices and item totals are integer cents. Derived amounts
(discounts, tax, totals) are Dafny `real`s, which are exact rationals. The
rates are 0.05, 0.10, 0.15, 0.102 and shipping is 2500 cents. The code never
rounds except when it formats a figure, so the model never rounds.

The blocking confirmation dialogs are inputs. `choice` is the answer to "use
the member discount?": true is OK, which picks member; false is Cancel, which
picks volume. `confirmed` is the answer to "clear your cart?".

Where a reader might expect other behaviour, the model follows the code:

- Toggling the member checkbox always unsettles the discount, whichever way
  it goes and whichever discount was settled (js/cart.js:258-262).
- A cart that becomes empty does not unsettle the discount. `render` stops at
  the empty-cart view before the settling logic (js/cart.js:85-94). Only a
  confirmed clear, the toggle and a page load reset it.
- A settled volume discount stays settled when the total drops below $50.
  The invoice then takes 0 % off, and the member flag stays cleared.
- Increment and decrement on an unknown id neither write nor re-render, so
  the state is unchanged. Remove always writes and re-renders, which can
  settle a discount.
- Decrement lowers the first line with the id. When that line reaches zero
  it drops every line with the id.
- The badge count is `qty || 1`, so a zero quantity counts as one.

## Model

| member | source | states |
|---|---|---|
| Seqs.FirstIndex | js/shop.js:39 | returns the first index whose element satisfies the predicate; None exactly when no element does |
| Seqs.Filter | js/cart.js:289 | the result holds exactly the elements of the input that satisfy the predicate, and is no longer |
| Seqs.FilterConcat | js/cart.js:280 | filtering distributes over concatenation, so kept elements keep their relative order |
| Seqs.FilterKeepsAll | js/cart.js:82 | a filter that rejects nothing returns its input unchanged |
| Seqs.FilterDropsAll | js/cart.js:280 | a filter that rejects everything returns the empty sequence |
| Seqs.FilterIdempotent | js/cart.js:289 | filtering twice with one predicate equals filtering once |
| Seqs.FilterDropsOne | js/cart.js:289 | when only element i is rejected, the result is the input with element i cut out, the rest in order |
| Pricing.VolumeDiscount | js/cart.js:50-57 | for a non-negative subtotal the discount is between 0 and the subtotal; it is positive exactly from 5000 cents |
| Pricing.MemberDiscount | js/cart.js:155 | the member discount is between 0 and the item total, and positive exactly when the total is |
| Pricing.TiersPartition | js/cart.js:6-11 | in cents every non-negative subtotal lies in exactly one tier and a negative one in none |
| Pricing.VolumeDiscountMatchesTable | js/cart.js:6-11 | the first-match tier lookup equals subtotal times the published rate (0/5/10/15 % at $0/$50/$100/$200), for every subtotal |
| Pricing.VolumeDiscountMonotone | js/cart.js:6-11 | for non-negative subtotals, neither the rate nor the discount decreases as the subtotal grows |
| Pricing.TierBoundaries | js/cart.js:6-11 | 49.99 gets 0; 50.00 gets 2.50 (5 %); 99.99 gets 5 %; 100.00 gets 10 %; 199.99 gets 10 %; 200.00 gets 15 % |
| Pricing.ComputeInvoice | js/cart.js:169-182 | only the settled discount is taken; at most one discount is nonzero; discount ≤ item total; taxable ≥ shipping; tax ≥ 0; total ≥ taxable |
| Pricing.InvoiceClosedForm | js/cart.js:169-182 | for every total and discount: shipping is 2500; the discount taken is total·rate of the settled discount (15 % or the tier rate); taxable = total − discount + shipping; tax = taxable·0.102; total = taxable + tax; in closed form total = (itemTotal·(1 − rate) + 2500)·1.102 |
| Pricing.ScenarioNoDiscount | js/cart.js:179-182 | a $29.99 cart without discount: taxable 54.99, tax 5.60898, total 60.59898 |
| Pricing.ScenarioVolume | js/cart.js:170-182 | a $150 cart on the volume discount: 15.00 off, taxable 160.00, tax 16.32, total 176.32 |
| Pricing.ScenarioMember | js/cart.js:173-182 | a $150 cart on the member discount: 22.50 off, taxable 152.50, total 168.055 |
| CartItems.Find | js/cart.js:266 | the reported line carries the id and no earlier line does; None exactly when the id is absent |
| CartItems.FindUnique | js/cart.js:266 | in a cart with unique ids, the line carrying an id is the one found |
| CartItems.RemoveUnique | js/cart.js:287-292 | with unique ids, removing line i's id is cutting line i out; the other lines stay in order |
| CartItems.FilterKeepsUnique | js/cart.js:280 | filtering a cart with unique ids leaves the ids unique |
| CartItems.AddToCart | js/shop.js:38-45 | a present id: same length, only that line's qty grows by 1. An absent id: the old cart is a prefix, plus one new line with qty 1. The id is then present |
| CartItems.Increment | js/cart.js:264-272 | unknown id: no change; otherwise only the first line with the id gains 1 and all other lines keep their place and value |
| CartItems.Decrement | js/cart.js:274-285 | unknown id: no change. Qty above 1: only that line loses 1. Otherwise every line with the id is gone and every other line stays |
| CartItems.DecrementToZero | js/cart.js:276-281 | on any cart, duplicate ids included, a decrement that reaches zero equals removing the id, so the other lines keep their order and multiplicity |
| CartItems.DecrementToZeroUnique | js/cart.js:278-281 | with unique ids, a decrement that reaches zero cuts exactly that line out, keeping the order |
| CartItems.Remove | js/cart.js:287-292 | exactly the lines of other products remain; the id is gone; an unknown id changes nothing |
| CartItems.RemoveConcat | js/cart.js:289 | removal works part by part, so the kept lines stay in order with their duplicates |
| CartItems.RemoveOne | js/cart.js:289 | a single line is dropped exactly when it carries the id; with RemoveConcat this fixes the result on every cart |
| CartItems.RemoveSwapLine | js/cart.js:278-281 | lowering a line that carries the id does not change what removing the id leaves |
| CartItems.RemoveIdempotent | js/cart.js:287-292 | removing an id twice is removing it once |
| CartItems.AddToCartWellFormed | js/shop.js:38-57 | add keeps ids unique and quantities positive, and the added product is then present with qty ≥ 1 |
| CartItems.IncrementWellFormed | js/cart.js:264-272 | increment keeps ids unique and quantities positive |
| CartItems.DecrementWellFormed | js/cart.js:274-285 | decrement keeps ids unique and quantities positive (a line at 1 disappears instead of reaching 0) |
| CartItems.CutWellFormed | js/cart.js:280 | cutting one line out of a well-formed cart leaves it well-formed |
| CartItems.RemoveWellFormed | js/cart.js:287-292 | remove keeps ids unique and quantities positive |
| CartItems.ItemCount | js/shop.js:24 | an empty cart counts 0; when every qty is positive the count is at least the number of lines |
| CartItems.ItemCountAppend | js/shop.js:44 | appending a line adds its count contribution |
| CartItems.ItemCountUpdate | js/shop.js:42 | replacing one line changes the count by the difference of the two contributions |
| CartItems.AddToCartCount | js/shop.js:38-48 | when all quantities are positive, one add raises the item count by exactly 1 |
| CartItems.ValidItems | js/cart.js:82 | keeps exactly the lines with positive price and positive quantity |
| CartItems.SumLineTotals | js/cart.js:116-118 | over priceable lines the sum is at least one cent per line |
| CartItems.ItemTotal | js/cart.js:82-118 | the item total is non-negative, and positive exactly when some line survives the filter |
| CartItems.ItemTotalIsPriceableSum | js/cart.js:116-118 | the item total equals the sum over the whole cart of price·qty of the priceable lines only |
| CartItems.ValidItemsKeepsGoodCart | js/cart.js:82 | on a cart with positive prices and quantities the filter drops nothing |
| CartSession.Reconcile | js/cart.js:153-167 | no effect once a discount is settled or when the total is ≤ 0. Otherwise: conflict (≥ $50 and member flag) follows the choice; volume only gives volume; member only gives member; neither stays none. Never touches cart or flag |
| CartSession.PromptOnlyOnConflict | js/cart.js:59-72 | the answer changes the outcome exactly when nothing is settled, the total is ≥ $50 and the member flag is on |
| CartSession.ApplySelection | js/cart.js:169-176 | after the apply step the member flag is on for the member discount and off for volume |
| CartSession.Render | js/cart.js:75-182 | no invoice exactly when the filtered cart is empty, and then the state is untouched. Otherwise the flag is consistent and the invoice prices the filtered item total under the settled discount. A settled discount is never changed; from none it settles per SettleFromNone (≥ $50 and flag: the answer; ≥ $50: volume; flag: member; else none) |
| CartSession.RenderedInvoiceSound | js/cart.js:149-182 | a shown invoice takes at most one discount, the settled one, at most the item total; no amount is negative |
| CartSession.RenderStable | js/cart.js:158-176 | a second render does not ask again and reproduces the same state and invoice |
| CartSession.PageLoad | js/cart.js:304-309 | after load the flag is off and the volume discount is settled exactly when the item total is ≥ $50 |
| CartSession.PageLoadNeverPrompts | js/cart.js:304-309 | loading the page never depends on a dialog answer |
| CartSession.ToggleMemberDiscount | js/cart.js:258-262 | the result is settled afresh from none with the new flag. Switching off gives volume from $50 and none below, never member. Switching on with ≥ $50 follows the choice; with less it settles member. An empty cart keeps nothing settled |
| CartSession.IncrementQty | js/cart.js:264-272 | unknown id: state unchanged; otherwise the cart is incremented, a settled discount stays, and from none the discount is settled for the new total; the member flag changes only when a discount is settled |
| CartSession.DecrementQty | js/cart.js:274-285 | unknown id: state unchanged; otherwise the cart is decremented, a settled discount stays, and from none the discount is settled for the new total; the member flag changes only when a discount is settled |
| CartSession.RemoveItem | js/cart.js:287-292 | the cart loses the id; a settled discount stays; from none the discount is settled for the new total; the member flag changes only when a discount is settled; consistency is kept |
| CartSession.ClearCart | js/cart.js:294-301 | confirmed: empty cart, member flag off, nothing settled; declined: no change |
| CartSession.ShopAdd | js/shop.js:38-47 | the cart becomes the add-to-cart result (every other line kept) and the page globals are untouched |
| CartSession.ScenarioPlusSettlesVolume | js/cart.js:264-272 | one $30.00 line with nothing settled and the flag off: + gives qty 2 and settles volume without asking |
| CartSession.StepKeepsInvariants | js/cart.js:258-301 | every action keeps ids unique, quantities positive and the flag consistent with the settled discount |
| CartSession.RunKeepsInvariants | js/cart.js:304-309 | every state a session reaches from a well-formed, consistent start keeps those invariants |
| CartSession.SettledDiscountSticks | js/cart.js:158-176 | a settled discount survives every action except toggle, confirmed clear and page load, even when the total leaves its tier |

## Left out

- Persistence. `readCart`/`writeCart` and JSON are not modelled. The state
  holds the stored cart directly, so a write followed by a read is the
  identity. A failed read yields an empty cart, and that is just one more
  starting cart.
- Records from storage with missing or non-numeric fields (`qty` undefined,
  a price that is `NaN`). Fields are integers here. For a missing `qty` the
  code would count 1 on the badge and produce `NaN` on increment.
- All HTML building, DOM updates, badge text, button feedback and the
  `setTimeout` reset. This includes `render`'s early return when the page has
  no cart container.
- The modal wiring in js/shop.js and all of js/collections.js. Neither has
  business rules.
- `formatCurrency`, `toFixed` and the percentage strings, because they are
  display only. Floating-point arithmetic is replaced by exact cents and
  rationals.
- VolumeDiscount: works in whole cents, so it does not reproduce the
  floating-point gaps of the JavaScript tier table. There, a float subtotal
  strictly between 49.99 and 50 (or 99.99 and 100, 199.99 and 200) matches no
  tier and gets no discount.
- The dialogs themselves. Their answers are the `choice` and `confirmed`
  parameters.
