# Shopping-cart store of the storefront script

This project models the shopping cart in `script.js`, the script behind a small storefront. The cart is an ordered list of line items `{id, name, price, quantity}`. Three handlers change it:

- add-to-cart, which bumps the quantity of a matching id in place or appends a new item;
- the delegated row-control handler, whose increase, decrease and remove branches change the list in place;
- clear-cart, which replaces the list with a new empty one.

After every change the cart is saved to a storage snapshot. The cart display reads two figures from it: the item count, computed with a `reduce`, and the money total, computed with an accumulator loop. The checkout handler composes a summary with a second accumulator loop.

Everything is in `cart.dfy`, in module `CartStore`:

- `Item` is the line-item value and `LineTotal` is price × quantity.
- `ItemCount` and `Total` are the reference sums. Both are defined recursively from the last item back.
- `ValidCart` is the cart invariant: ids are unique and every quantity is at least 1.
- `Find`, `Added`, `Increased`, `Decreased` and `Spliced` are the operations on values. Each has a contract that describes the resulting list position by position.
- Lemmas show what each operation does to the invariant and to both sums.
- Class `Cart` holds the in-memory list `items` and the storage entry `stored`. Its methods are the handlers. Each one ties the new `items` to the matching value-level operation, states the new snapshot, and preserves the invariant. `DisplayTotals` and `Checkout` read the cart and prove that their accumulator loops compute `Total`.
- `WidgetScenario` is a client method. From the contracts alone it proves this sequence: add "A" (Widget, 10) twice, giving quantity 2 and total 20; decrease, giving quantity 1 and total 10; decrease again, giving an empty cart; then checkout shows the empty-cart notice.

Prices are Dafny `real`s, which are exact rationals. The script parses them into floating-point numbers. Quantities are unbounded integers. Row indices are already-parsed naturals, and `None` stands for an index that did not parse (`NaN`).

## Model

| member | source | states |
|---|---|---|
| `CartStore.ItemCountConcat` | script.js:33 | the item count of a concatenation is the sum of the two parts' counts |
| `CartStore.TotalConcat` | script.js:37-43 | the money total of a concatenation is the sum of the two parts' totals |
| `CartStore.SumsAround` | script.js:33 | count and total of `a + [x] + b` split into a's, x's own line, and b's |
| `CartStore.SumsAfterUpdate` | script.js:111 | replacing one item changes the count by the quantity difference and the total by the line-total difference |
| `CartStore.LineTotal` | script.js:43 | the charge for one line: a line of quantity 1 charges exactly its unit price, and a non-negative price and quantity never give a negative charge |
| `CartStore.ReduceQuantities` | script.js:33 | the left-to-right `reduce` from accumulator `acc` yields `acc` plus the recursive sum of quantities |
| `CartStore.TotalItems` | script.js:33 | the figure on the cart link (the reduce started at 0) equals the sum of the quantities |
| `CartStore.ItemCountBounds` | script.js:33 | when every quantity is ≥ 1 the count is at least the number of lines, and it is 0 exactly when the cart is empty |
| `CartStore.Find` | script.js:76 | `find` by id gives the first position holding that id, and gives none exactly when no item has it |
| `CartStore.FindUnique` | script.js:76 | in a cart with unique ids, `find` returns the one position holding the id |
| `CartStore.Added` | script.js:76-81 | existing id: same length, that item's quantity +1 with its name and price kept, every other item unchanged; new id: the old items are unchanged and `{id, name, price, 1}` is appended at the end |
| `CartStore.Increased` | script.js:111 | same length, only the item at the index changes, and only its quantity, by +1 |
| `CartStore.Spliced` | script.js:116-119 | for an index in range, length drops by one, items before the index stay put, and items after it shift down one; past the end, nothing changes |
| `CartStore.Decreased` | script.js:113-117 | quantity > 1: only that item's quantity drops by 1, in place; otherwise the item is spliced out |
| `CartStore.AddedPreservesValid` | script.js:76-81 | adding keeps ids unique and quantities ≥ 1 |
| `CartStore.AddedSums` | script.js:76-81 | adding raises the count by 1; the total rises by the stored unit price (existing id) or the given price (new id) |
| `CartStore.AddedTwice` | script.js:76-81 | adding a new id twice yields one line with quantity 2 at the end, not two lines |
| `CartStore.IncreasedPreservesValid` | script.js:111 | increasing keeps the cart invariant |
| `CartStore.IncreasedSums` | script.js:111 | increasing raises the count by 1 and the total by that item's unit price |
| `CartStore.SplicedPreservesValid` | script.js:116-119 | removing a position (or doing nothing past the end) keeps the cart invariant |
| `CartStore.SplicedSums` | script.js:119 | removing a line lowers the count by its quantity and the total by its line total |
| `CartStore.DecreasedPreservesValid` | script.js:113-117 | decreasing keeps the cart invariant, including when the item is removed |
| `CartStore.DecreasedSums` | script.js:113-117 | with quantity ≥ 1, decreasing lowers the count by 1 and the total by the unit price, whether the item shrinks or leaves |
| `CartStore.Cart.constructor` | script.js:19 | the cart starts as the stored snapshot, or empty (and valid) when nothing is stored |
| `CartStore.Cart.Save` | script.js:28-30 | the snapshot is overwritten with the current cart, and the cart itself is unchanged |
| `CartStore.Cart.AddToCart` | script.js:70-83 | the new cart is `Added` of the old one and is saved; validity is preserved; the count rises by 1, and the total rises by the stored unit price (existing id) or the given price (new id) |
| `CartStore.Cart.Increase` | script.js:110-111 | the new cart is `Increased` of the old one; validity is preserved; the count rises by 1 and the total by that item's unit price |
| `CartStore.Cart.Decrease` | script.js:112-117 | the new cart is `Decreased` of the old one; validity is preserved; for a quantity of at least 1, the count drops by 1 and the total by that item's unit price |
| `CartStore.Cart.Remove` | script.js:118-119 | the new cart is `Spliced` of the old one; validity is preserved; for an index in range, the count drops by that item's quantity and the total by its line total |
| `CartStore.Cart.OnRowClick` | script.js:106-123 | an unparsed index changes and saves nothing; otherwise the branch picked by the control class runs (another target leaves the cart as it was) and the result is saved |
| `CartStore.Cart.ClearCart` | script.js:127-130 | the cart and its snapshot are empty, the cart is valid, and its count and total are 0 |
| `CartStore.Cart.DisplayTotals` | script.js:32-43 | the displayed item count equals the sum of quantities; the display's accumulator total equals `Total` |
| `CartStore.Cart.Checkout` | script.js:134-146 | empty cart gives the empty-cart notice exactly; otherwise one summary line per item (name, quantity, line total) and a grand total equal to `Total`; the cart is not modified |

## Left out

- DOM work is not modelled: element lookups, rendering with `innerHTML`/`createElement`, the `textContent` strings, showing and hiding the modal, and the event-listener wiring. It is presentation with no cart state. `DisplayTotals` keeps only the two figures the display shows.
- The `alert` notifications and the message text are not modelled. `Checkout` returns the summary as structured lines and a total, not as a string.
- Serialization to `localStorage` is not modelled. `JSON.stringify`/`JSON.parse` are library calls, so the snapshot is held as an already-decoded list (`stored`). A stored value that is not valid JSON would make `JSON.parse` throw in the script. That case is outside the model: the constructor takes an already-decoded snapshot or none.
- `Cart.constructor`: decoded falsy values (`null`, `0`, `""`) also fall back to an empty cart in the script. The model only has "absent" and "a list of items".
- Floating-point prices are not modelled. Prices are exact rationals, so the totals carry no rounding. `parseFloat` and `parseInt` of the data attributes are not modelled either: the handlers receive parsed values.
- `Cart.Increase`, `Cart.Decrease`: they require an index inside the cart. With an out-of-range index the script throws a TypeError before saving, and the model does not represent that exception. `OnRowClick` passes this requirement on for those two controls.
- Negative row indices are not modelled: indices are naturals. The rendered controls only ever carry 0..n-1. In the script, `splice` with a negative index would count from the end.
- Aliasing of item objects is not modelled. The script mutates the object that `find` returned, and no other reference to it exists, so updating the list value is equivalent.
- The mobile menu toggle, the smooth scroll and the contact-form handler are not modelled. They are DOM side effects with no state.
- The script does not ignore every invalid input. `splice` past the end is a no-op, and `Spliced` models that. Increase or decrease at a missing index throws a TypeError. A malformed snapshot makes `JSON.parse` throw.
