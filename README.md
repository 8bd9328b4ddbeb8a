# Verified model of the shopping-cart slice

This project models the cart slice of a small React/Redux shopping-cart
demo. The slice holds an ordered list of line items. Each item is a catalog
product (`id`, `title`, `price`, `image`) with a `quantity` added. The list
starts empty, and four reducers change it:

- `addToCart` bumps the quantity of the first item with the product's id. If the id is absent, it appends the product with quantity 1.
- `removeFromCart` filters out every item with the id.
- `increaseQuantity` bumps the first item with the id.
- `decreaseQuantity` lowers the first item with the id, but only when its quantity is above 1.

Files:

- `cart_slice.dfy`, module `CartSlice`, holds the core:
  - the `Product` and `CartItem` datatypes;
  - ghost specification functions for the two list primitives the reducers use: `FirstIndex` (what `find` returns) and `Without` (what `filter` keeps);
  - one ghost function per reducer giving the new list: `Added`, `Removed`, `Increased`, `Decreased`;
  - the class `Cart`. Its `items` field is a `seq<CartItem>`. Its four methods reassign that field in place, using the loop methods `Find` and `Filter`, and each is proved equal to its specification function;
  - lemmas stating what each reducer does and that every reachable state keeps ids unique and quantities at 1 or more.
- `cart_views.dfy`, module `CartViews`, holds the two values the pages derive from the cart:
  - the navigation badge, `ItemCount`: the number of line items, not the number of units;
  - the cart page's `Subtotal`: Σ price × quantity.

Prices are integer cents.

`find` stops at the first match, while `filter` drops every match. The model keeps
this difference. `FindAndFilterDiffer` shows it on a list with a duplicated id.
`removeFromCart` drops every item with the id. The reducers keep ids unique in
every reachable state (`ReachableValid`). Under that invariant, the items dropped
are exactly the single item `find` would return, as `WithoutUniqueIsSplice` shows.

## Model

| member | source | states |
|---|---|---|
| CartSlice.FirstIndex | src/features/cart/cartSlice.tsx:33-35 | `find` semantics: the result is the first index whose id matches (no match before it), or the list length exactly when no item has the id |
| CartSlice.Without | src/features/cart/cartSlice.tsx:45 | `filter` semantics: no kept item has the id, and the result is no longer than the input |
| CartSlice.Find | src/features/cart/cartSlice.tsx:33-35 | the search loop returns the first matching index, or the length when the id is absent |
| CartSlice.Filter | src/features/cart/cartSlice.tsx:45 | the filtering loop produces exactly the `filter` result |
| CartSlice.Cart.constructor | src/features/cart/cartSlice.tsx:17-19 | the initial state is the empty list, which satisfies the invariant |
| CartSlice.Cart.AddToCart | src/features/cart/cartSlice.tsx:26-43 | the new list is `Added(old list, product)`, and a valid cart stays valid |
| CartSlice.Cart.RemoveFromCart | src/features/cart/cartSlice.tsx:44-46 | the new list is the filtered old list, and a valid cart stays valid |
| CartSlice.Cart.IncreaseQuantity | src/features/cart/cartSlice.tsx:47-50 | the new list is `Increased(old list, id)`, and a valid cart stays valid |
| CartSlice.Cart.DecreaseQuantity | src/features/cart/cartSlice.tsx:51-54 | the new list is `Decreased(old list, id)`, and a valid cart stays valid |
| CartSlice.AddExisting | src/features/cart/cartSlice.tsx:33-39 | adding a present id raises that item's quantity by exactly 1. Its id, title, price and image stay as stored, the length is unchanged and every other item is identical |
| CartSlice.AddNew | src/features/cart/cartSlice.tsx:40-42 | adding a new id appends one item equal to the payload with quantity 1. Every earlier item is unchanged |
| CartSlice.AddTwiceMerges | src/features/cart/cartSlice.tsx:33-42 | adding the same new product twice yields a single line with quantity 2, not two lines |
| CartSlice.RemoveSpec | src/features/cart/cartSlice.tsx:44-46 | after removal no item has the id. Every copy of every other item is kept, with the same multiplicity and in the original relative order (a subsequence), and nothing else is. An absent id leaves the list unchanged |
| CartSlice.WithoutCounts | src/features/cart/cartSlice.tsx:45 | filtering keeps every copy of each item of another id and no copy of an item with the id |
| CartSlice.AddedPresentIsIncreased | src/features/cart/cartSlice.tsx:33-39 | on a present id, addToCart yields the same list as increaseQuantity on that id |
| CartSlice.WithoutIsSubsequence | src/features/cart/cartSlice.tsx:45 | filtering keeps the surviving items in their original relative order |
| CartSlice.WithoutMembers | src/features/cart/cartSlice.tsx:45 | an item survives filtering exactly when it was in the list and has a different id |
| CartSlice.WithoutHasId | src/features/cart/cartSlice.tsx:45 | after filtering, an id is present exactly when it is not the removed one and was present before |
| CartSlice.WithoutAbsent | src/features/cart/cartSlice.tsx:44-46 | filtering by an absent id returns the list unchanged |
| CartSlice.WithoutUniqueIsSplice | src/features/cart/cartSlice.tsx:33-53 | with unique ids, `filter` removes exactly the one item `find` returns, and nothing else moves |
| CartSlice.FindAndFilterDiffer | src/features/cart/cartSlice.tsx:45-49 | with two items sharing an id, `increaseQuantity` bumps only the first while `removeFromCart` drops both |
| CartSlice.IncreaseSpec | src/features/cart/cartSlice.tsx:47-50 | the first matching item gains exactly 1, with no upper bound. The length is the same and every other item is identical. An absent id leaves the list unchanged |
| CartSlice.DecreaseSpec | src/features/cart/cartSlice.tsx:51-54 | the first matching item loses 1 only when its quantity is above 1. At 1 or below, and for an absent id, the list is unchanged. The length is the same, every other item is identical, and the item is never removed |
| CartSlice.DecreaseAtFloor | src/features/cart/cartSlice.tsx:53 | once the matching item is at quantity 1, any number of further decreases leaves the list unchanged |
| CartSlice.IncreaseThenDecrease | src/features/cart/cartSlice.tsx:47-54 | with all quantities at 1 or more, increasing then decreasing the same id restores the original list |
| CartSlice.FirstIndexAfterUpdate | src/features/cart/cartSlice.tsx:48-53 | changing the quantity of an item does not move where `find` stops |
| CartSlice.WithoutValid | src/features/cart/cartSlice.tsx:45 | filtering keeps ids unique and quantities at 1 or more |
| CartSlice.AddedValid | src/features/cart/cartSlice.tsx:26-43 | addToCart keeps ids unique and quantities at 1 or more |
| CartSlice.RemovedValid | src/features/cart/cartSlice.tsx:44-46 | removeFromCart keeps ids unique and quantities at 1 or more |
| CartSlice.IncreasedValid | src/features/cart/cartSlice.tsx:47-50 | increaseQuantity keeps ids unique and quantities at 1 or more |
| CartSlice.DecreasedValid | src/features/cart/cartSlice.tsx:51-54 | decreaseQuantity keeps ids unique and quantities at 1 or more |
| CartSlice.ReachableValid | src/features/cart/cartSlice.tsx:17-55 | after any sequence of the four actions from the empty initial state, no two items share an id and every quantity is at least 1 |
| CartViews.SubtotalUpdate | src/pages/CartPage.tsx:7 | replacing one line changes the subtotal by the difference of the two line totals |
| CartViews.ItemCount | src/App.tsx:7 | the badge count is zero exactly for the empty cart. With unique ids it equals the number of distinct product ids, not the number of units |
| CartViews.LineTotal | src/components/CartItem.tsx:18 | a line with quantity 1 costs its unit price, and non-negative prices and quantities give a non-negative total |
| CartViews.Subtotal | src/pages/CartPage.tsx:7 | the left-to-right sum of line totals. With non-negative prices and quantities it is never negative and no line's total exceeds it |
| CartViews.UniqueIdsCount | src/App.tsx:7 | with unique ids, the number of distinct ids equals the number of line items |
| CartViews.SubtotalConcat | src/pages/CartPage.tsx:7 | the subtotal of two lists joined is the sum of their subtotals |
| CartViews.AddExistingViews | src/features/cart/cartSlice.tsx:33-39 | adding a present id raises the subtotal by the stored unit price, not the payload's. The badge count is unchanged |
| CartViews.AddNewViews | src/features/cart/cartSlice.tsx:40-42 | adding a new id raises the subtotal by the payload's price and the badge count by 1 |
| CartViews.IncreaseViews | src/features/cart/cartSlice.tsx:47-50 | increaseQuantity raises the subtotal by the matching item's price, or by nothing for an absent id. The badge count is unchanged |
| CartViews.DecreaseViews | src/features/cart/cartSlice.tsx:51-54 | decreaseQuantity lowers the subtotal by the item's price only when its quantity was above 1. The badge count is unchanged |
| CartViews.RemoveViews | src/features/cart/cartSlice.tsx:44-46 | with unique ids, removing a present id lowers the subtotal by that line's total and the badge count by 1. An absent id changes neither |
| CartViews.HeadphonesScenario | src/features/cart/cartSlice.tsx:26-54 | the walk-through: add, add again (quantity 2, one line, 11998 cents), increase (17997 cents), three decreases (the third is a no-op at 1), remove (empty cart, zero subtotal), and removing id 99 from an empty cart changes nothing |

## Left out

- Prices: JavaScript `number` prices are floating point. The model uses integer cents, so the float sums and the `toFixed(2)` formatting in src/pages/CartPage.tsx and src/components/CartItem.tsx are not modelled.
- Ids and quantities: these are JavaScript numbers too. The model uses unbounded integers, so precision loss above 2^53 is not modelled.
- Redux Toolkit and Immer: `createSlice`, the generated action creators and copy-on-write drafts (src/features/cart/cartSlice.tsx:21-24, 58-60) are library code. The reducers are modelled directly as in-place updates of the `Cart` object.
- The store and hooks: src/store.tsx and src/Hooks.tsx (`configureStore`, `useDispatch`, `useSelector`) wrap library code that is not part of this model.
- Change notification and re-rendering are UI concerns. They are not modelled.
- React components: rendering, routing and button wiring in src/App.tsx, src/pages and src/components are not modelled. Only the badge count (src/App.tsx:7) and the subtotal (src/pages/CartPage.tsx:7) appear, as the functions `ItemCount` and `Subtotal`.
- The static catalog in src/data/products.ts is not modelled. Products reach the model as arguments.
