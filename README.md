# Guest cart and checkout, modelled in Dafny

This project models the core of a small e-commerce store. There is one guest cart and no accounts.

- **Server cart.** The server keeps the cart's lines in a store next to a product catalogue. Each line has a product and a quantity. Every cart request except clearing answers with the lines whose product still exists and their total. Clearing answers with a message only.
- **Checkout.** Checkout validates the customer's name and email. It freezes the cart into an order, with each line's price of the moment, and saves the order. Only then does it empty the cart.
- **Client cart.** A pure reducer keeps the client's copy of the cart.
- **Category page.** It filters products by category and by price band, sorts them in place and builds a title.
- **Checkout page.** It validates the form and builds the request body.

Layout, one module per file:

| file | module | models |
|---|---|---|
| `optional.dfy` | `Optional` | the `Option` datatype |
| `seqs.dfy` | `Seqs` | `Array.prototype.filter`, order-preserving subsequences, and the first-match search used for `findOne`, `findById` and string splitting |
| `text.dfy` | `Text` | JavaScript `trim` and its white space set, ASCII case mapping, the email pattern `^[^\s@]+@[^\s@]+\.[^\s@]+$` |
| `store.dfy` | `Store` | the entities and the `Database` class holding the product catalogue, the guest cart lines and the saved orders |
| `cart_controller.dfy` | `CartController` | the five cart endpoints, as methods that update a `Database` |
| `checkout_controller.dfy` | `CheckoutController` | the checkout and the receipt lookup, as methods that update a `Database` |
| `cart_context.dfy` | `CartContext` | the client reducer and its read helpers, as functions |
| `category_page.dfy` | `CategoryPage` | the filters and the title as functions, and the sort as an in-place method on an array |
| `checkout_page.dfy` | `CheckoutPage` | form validation and the submit guards, as methods, and the payload, as a function |

Conventions:

- **Money.** All amounts are integer cents, so the source's `Math.round(x * 100) / 100` is the identity. The price bands of 25, 50 and 100 dollars become 2500, 5000 and 10000 cents.
- **Cart lines.** They are a sequence in insertion order, because that order shows in every cart response. Mongo's `findOne` and `findById` return the first match.
- **Store failures.** A failed `save` or `deleteMany` is passed to `ProcessCheckout` as a `StoreFault` argument.
- **Client errors.** Reading `_id` of a `null` product throws a TypeError in the client. The model returns `Eval.TypeError` there instead of a value.

## Model

| member | source | states |
|---|---|---|
| Seqs.Filter | backend/src/controllers/cartController.js:12 | the result holds only kept elements, holds every element that passes, and is no longer than the input |
| Seqs.FilterIsSubsequence | frontend/src/pages/CategoryPage.jsx:31-33 | a filter keeps the relative order of what it keeps |
| Seqs.FilterCount | frontend/src/context/CartContext_old.jsx:92 | a filter keeps each passing element as often as it occurred and drops every other one |
| Seqs.SubsequenceTransitive | frontend/src/pages/CategoryPage.jsx:30-52 | two order-preserving filters in a row preserve order |
| Text.TrimStartSpec | backend/src/controllers/checkoutController.js:56 | trimming the start drops a white-space-only prefix and leaves a string that is empty or starts with a non-space |
| Text.TrimEndSpec | backend/src/controllers/checkoutController.js:56 | trimming the end drops a white-space-only suffix and leaves a string that is empty or ends with a non-space |
| Text.TrimEmptyIff | frontend/src/pages/CheckoutPage.jsx:34-38 | `!s.trim()` holds exactly when `s` is all white space |
| Text.TrimNoSpace | frontend/src/pages/CheckoutPage.jsx:80-81 | trimming a string without white space changes nothing |
| Text.ToLower | frontend/src/pages/CategoryPage.jsx:32 | lower-casing keeps the length and maps each character on its own |
| Text.SplitGivesEmail | backend/src/controllers/checkoutController.js:20-21 | a split of the address that fits the pattern's three runs meets the executable test |
| Text.EmailGivesSplit | backend/src/controllers/checkoutController.js:20-21 | an address that meets the executable test has a split that fits the pattern |
| Text.EmailPatternIff | backend/src/controllers/checkoutController.js:20-21 | the executable email test accepts exactly the strings the regular expression matches: a non-empty local part, one `@`, a domain with an inner dot, no white space |
| Text.ToLowerKeepsEmail | backend/src/controllers/checkoutController.js:57 | the lower-cased stored email still matches the pattern |
| Text.SampleEmailAccepted | frontend/src/pages/CheckoutPage.jsx:40 | `jo@x.com` matches |
| Text.PaddedEmailRejected | frontend/src/pages/CheckoutPage.jsx:40 | every email with leading or trailing white space fails the anchored pattern, because the page tests the untrimmed text |
| Text.DotlessDomainRejected | backend/src/controllers/checkoutController.js:20 | every address with no dot after its first '@' fails the pattern, whatever dots the part before it holds |
| Store.LineForProduct | backend/src/controllers/cartController.js:52-55 | finds the first line of a product, or reports that there is none |
| Store.LineWithId | backend/src/controllers/cartController.js:111-115 | finds the line with an id, or reports that there is none |
| CartController.PopulateSpec | backend/src/controllers/cartController.js:9-12 | the view holds each line whose product exists, paired with that product, and nothing else |
| CartController.PopulateKeepsResolved | backend/src/controllers/cartController.js:9-12 | the view's lines are exactly the resolving lines, in store order |
| CartController.ViewTotalIsComputeTotal | backend/src/controllers/cartController.js:15-17 | the view's total is the sum of price times qty over the lines that resolve |
| CartController.ComputeTotalAppend | backend/src/controllers/cartController.js:15-17 | the total is additive over concatenated line lists |
| CartController.TotalAfterSetQty | backend/src/controllers/cartController.js:117-128 | setting one line's qty changes the total by price times the qty difference |
| CartController.TotalAfterRemove | backend/src/controllers/cartController.js:158-168 | deleting a line lowers the total by that line's amount |
| CartController.TotalAfterAppend | backend/src/controllers/cartController.js:63-79 | a new line raises the total by its amount |
| CartController.OneLinePerProduct | backend/src/controllers/cartController.js:52-69 | in a cart built by these endpoints a product has exactly one line once it has any |
| CartController.RemoveKeepsValid | backend/src/controllers/cartController.js:158 | deleting a line keeps ids and products unique and drops that id |
| CartController.MergeKeepsValid | backend/src/controllers/cartController.js:57-69 | merging a positive qty keeps every qty at least 1 and ids and products unique |
| CartController.MergeOneLine | backend/src/controllers/cartController.js:52-69 | after an add the product has exactly one line, whether it was merged or created |
| CartController.MergeTotal | backend/src/controllers/cartController.js:57-79 | an add raises the total by the product's price times the added qty |
| CartController.GetCart | backend/src/controllers/cartController.js:7-22 | GET returns the resolving lines and their total, changing nothing |
| CartController.AddToCart | backend/src/controllers/cartController.js:35-85 | missing or non-positive qty, or a missing product id, gives 400; an unknown product gives 404; otherwise the product's one line gains qty and the total grows by price times qty; the message says whether it merged; orders and products stay unchanged |
| CartController.UpdateCartItem | backend/src/controllers/cartController.js:99-134 | qty below 1 or missing gives 400; an unknown id gives 404; otherwise only that line's qty becomes qty and the total moves accordingly |
| CartController.RemoveFromCart | backend/src/controllers/cartController.js:150-174 | an unknown id gives 404; otherwise only that line is deleted and the total drops by its amount |
| CartController.ClearCart | backend/src/controllers/cartController.js:190-193 | the cart ends empty from any state, so clearing twice is the same as once |
| CheckoutController.CustomerError | backend/src/controllers/checkoutController.js:13-25 | validation passes exactly when name and email are non-empty and the email matches; otherwise it gives the required or the invalid message |
| CheckoutController.BlankNameAccepted | backend/src/controllers/checkoutController.js:13-17 | every non-empty name of white space only, with a valid email, passes validation and is stored as the empty string |
| CheckoutController.FrozenItemsSpec | backend/src/controllers/checkoutController.js:38-47 | each order line is the cart line's product and qty with the product's current price |
| CheckoutController.OrderTotalIsCartTotal | backend/src/controllers/checkoutController.js:37-55 | the order total equals the cart total the cart endpoints show for the same lines |
| CheckoutController.FreezeLines | backend/src/controllers/checkoutController.js:37-47 | the accumulating loop fails exactly when some line's product is gone, and otherwise yields the frozen lines and their total |
| CheckoutController.ReceiptLinesSpec | backend/src/controllers/checkoutController.js:76-81 | each receipt line has the product name, qty, price and subtotal price times qty |
| CheckoutController.SaveAndClear | backend/src/controllers/checkoutController.js:62-83 | a failed save changes nothing; a failed clear leaves the order saved and the cart intact; otherwise the order is appended, the cart emptied and the receipt returned |
| CheckoutController.ProcessCheckout | backend/src/controllers/checkoutController.js:8-92 | invalid customer or empty cart gives 400 with nothing changed; an orphaned line gives 500 with nothing changed; a failed save gives 500 with nothing changed; a failed clear leaves the order saved and the cart intact; otherwise exactly one order is appended, with total equal to the cart total, trimmed name and trimmed lower-cased email, the cart is emptied and the receipt returned |
| CheckoutController.OrderIndex | backend/src/controllers/checkoutController.js:99 | finds the first order with a receipt id, or reports that there is none |
| CheckoutController.FindAfterSave | backend/src/controllers/checkoutController.js:99-104 | saving an order never changes what an existing receipt id finds, and a fresh id then finds the new order |
| CheckoutController.GetOrderByReceiptId | backend/src/controllers/checkoutController.js:97-106 | 404 exactly when no order has the id; otherwise the first such order |
| CartContext.MergeQtyCount | frontend/src/context/CartContext_old.jsx:63-69 | merging adds the payload qty to the item count once per matching item |
| CartContext.MergeQtyTotal | frontend/src/context/CartContext_old.jsx:63-69 | merging adds the payload qty times each matching item's price to the total |
| CartContext.FindSameNone | frontend/src/context/CartContext_old.jsx:59-61 | `find` gives no item exactly when every product is present, the payload's too on a non-empty cart, and no item has the payload's product |
| CartContext.FindSameThrows | frontend/src/context/CartContext_old.jsx:59-61 | `find` throws only when an item, or on a non-empty cart the payload, has a null product |
| CartContext.FindSameFirst | frontend/src/context/CartContext_old.jsx:59-61 | an item `find` gives is the first of the payload's product, and every item before it has a product |
| CartContext.MapMergeSpec | frontend/src/context/CartContext_old.jsx:65-69 | the `map` throws exactly when the cart is non-empty and some product is null; otherwise it adds the qty to the payload's product's items only |
| CartContext.AddToItemsMerges | frontend/src/context/CartContext_old.jsx:59-69 | when every product is present and an item already has the payload's product, `find` then `map` give the merged list |
| CartContext.AddItemMerges | frontend/src/context/CartContext_old.jsx:58-78 | ADD_ITEM for a product already present keeps the length, adds the qty to that product's items only, recomputes the total, and keeps loading and error |
| CartContext.AddItemMergeTotals | frontend/src/context/CartContext_old.jsx:58-78 | after a merging ADD_ITEM, the count grows by qty per matching item and the total by qty times their prices |
| CartContext.AddItemAppends | frontend/src/context/CartContext_old.jsx:70-78 | ADD_ITEM for a new product appends the payload and the total grows by its amount |
| CartContext.AddItemThrowsIff | frontend/src/context/CartContext_old.jsx:59-69 | run step by step, ADD_ITEM throws exactly when an item, or on a non-empty cart the payload, has no product: a null before the first match stops `find`, one after it stops the `map` |
| CartContext.UpdateItemReplaces | frontend/src/context/CartContext_old.jsx:80-89 | UPDATE_ITEM replaces exactly the items with the payload's id and recomputes the total; an absent payload throws on a non-empty cart |
| CartContext.WithoutIdSpec | frontend/src/context/CartContext_old.jsx:92 | the filtered list has no item with the id and keeps every other item as often as it occurred, in order |
| CartContext.RemoveItemDrops | frontend/src/context/CartContext_old.jsx:91-98 | REMOVE_ITEM leaves no item with the id, keeps every other item as often as it occurred and in order, and recomputes the total |
| CartContext.LoadingAndErrorFlags | frontend/src/context/CartContext_old.jsx:34-46 | SET_LOADING sets the flag and clears the error; SET_ERROR stops loading and records the message; items and total stay unchanged |
| CartContext.ClearAndUnknown | frontend/src/context/CartContext_old.jsx:100-108 | CLEAR_CART empties items and total and keeps loading and error; an unknown action returns the state unchanged |
| CartContext.SetCartTakesPayload | frontend/src/context/CartContext_old.jsx:48-56 | SET_CART takes the items (or none), the payload total when non-zero and the computed one otherwise, and resets loading and error |
| CartContext.IsInCartIff | frontend/src/context/CartContext_old.jsx:235-237 | with every product present, `isInCart` holds exactly when some item has the product |
| CartContext.GetCartItemFirst | frontend/src/context/CartContext_old.jsx:240-242 | with every product present, `getCartItem` returns the first item of the product, or nothing exactly when none has it |
| CartContext.IsInCartAgrees | frontend/src/context/CartContext_old.jsx:235-242 | `isInCart` and `getCartItem` agree on every input, throws included |
| CartContext.ClientTotalMatchesServer | frontend/src/context/CartContext_old.jsx:26-31 | the client's total over the server's cart lines equals the server's total |
| CartContext.ReduceKeepsTotal | frontend/src/context/CartContext_old.jsx:25-110 | every reducer case that does not throw keeps the shown total equal to the items' total, provided a SET_CART's non-zero total is that of its items |
| CartContext.RunKeepsTotal | frontend/src/context/CartContext_old.jsx:25-110 | over any run of such actions that does not throw, the shown total stays the items' total |
| CartContext.InitialRunKeepsTotal | frontend/src/context/CartContext_old.jsx:6-11 | starting from `initialState`, every such run shows the total of its items |
| CartContext.SetCartShowsServerTotal | frontend/src/context/CartContext_old.jsx:48-56 | loading a server cart response shows the server's lines and total, whichever side of `total \|\| calculateTotal` runs |
| CartContext.UpdateAsWrittenThrows | frontend/src/context/CartContext_old.jsx:170-177 | after any successful quantity update of a non-empty cart, the reducer throws |
| CartContext.AfterUpdateShowsServerCart | frontend/src/context/CartContext_old.jsx:150-158 | dispatching SET_CART with the response body, as `addToCart` does, shows the server's lines and total |
| CategoryPage.ByCategoryExact | frontend/src/pages/CategoryPage.jsx:30-34 | with a category other than 'all', each product of that category, ignoring ASCII case, is kept as often as it occurs and every other one is dropped, in order; otherwise all are kept |
| CategoryPage.ByPriceRangeExact | frontend/src/pages/CategoryPage.jsx:37-52 | a product whose price is in the band is kept as often as it occurs and any other is dropped, in order |
| CategoryPage.FilteredExact | frontend/src/pages/CategoryPage.jsx:29-52 | both filters together keep each matching product as often as it occurs and drop the rest, as an order-preserving subsequence |
| CategoryPage.BandsOverlapOnlyAtFifty | frontend/src/pages/CategoryPage.jsx:39-49 | every price is in some band; of the six pairs of bands, only 25-50 and 50-100 share a price, and that price is 50 dollars |
| CategoryPage.SortByKey | frontend/src/pages/CategoryPage.jsx:57-66 | the array ends sorted by the key and is a permutation of what it held |
| CategoryPage.SwapKeepsMultiset | frontend/src/pages/CategoryPage.jsx:57 | swapping two neighbours keeps the same elements |
| CategoryPage.InsertInto | frontend/src/pages/CategoryPage.jsx:57 | one insertion step extends the sorted prefix by one entry and permutes the array |
| CategoryPage.FetchCategoryProducts | frontend/src/pages/CategoryPage.jsx:26-71 | the listing is a permutation of the filtered products, sorted by the chosen key, and in catalogue order for 'featured' or an unknown sort |
| CategoryPage.TitleIsPointwise | frontend/src/pages/CategoryPage.jsx:86-88 | the title has the category's length, turns each dash into a space, upper-cases each word's first letter and keeps every other character |
| CategoryPage.SplitJoinRoundTrip | frontend/src/pages/CategoryPage.jsx:86 | the words rejoined with dashes give the category back |
| CategoryPage.SplitWordsHaveNoDash | frontend/src/pages/CategoryPage.jsx:86 | no word of the split holds a dash |
| CategoryPage.AllProductsTitle | frontend/src/pages/CategoryPage.jsx:85 | no category, an empty one or 'all' gives 'All Products' |
| CheckoutPage.ValidateForm | frontend/src/pages/CheckoutPage.jsx:31-46 | a blank name gets the required message; a blank email gets the required message; a non-blank email that does not match gets the invalid message; the form passes exactly when no message is recorded |
| CheckoutPage.OrderLines | frontend/src/pages/CheckoutPage.jsx:82-86 | each payload line is the item's product id, qty and client-side price |
| CheckoutPage.HandleSubmit | frontend/src/pages/CheckoutPage.jsx:64-100 | an invalid form sends nothing; an empty cart sends nothing; an item without a product ends in the generic failure; otherwise the trimmed name and email and the item lines are sent |
| CheckoutPage.AcceptedEmailIsTrimmed | frontend/src/pages/CheckoutPage.jsx:40-81 | an email the page accepts is sent unchanged by trimming |
| CheckoutPage.SentFormPassesServer | backend/src/controllers/checkoutController.js:13-25 | the name and email of every form the page sends pass the server's validation |
| CheckoutPage.ServerAcceptsMore | frontend/src/pages/CheckoutPage.jsx:34 | the server accepts a blank name that the page refuses |

## Left out

- Floating-point prices. Amounts are integer cents, so rounding to cents is exact and is not modelled.
- Receipt ids. `RCP` plus the clock plus a random number is a parameter of `ProcessCheckout`. Collisions between receipt ids are allowed, and the lookup returns the first match.
- Timestamps. `createdAt` on orders and cart lines is not modelled. On catalogue listings it is a plain integer used as the 'newest' key.
- Mongo I/O. Only the failures of the checkout's save and clear are modelled. A `CastError` on a malformed id (400) and the generic 500 handlers of the cart endpoints are left out: ids are naturals, and the cart store does not fail.
- `parseInt` on the requested qty. The model takes an integer qty and stores it as given.
- Concurrency. Interleaved requests against the one guest cart are left out; each endpoint runs atomically.
- The product catalogue. It changes only outside this core, by seeding and deletion. The models of products and orders are not part of this model beyond the fields these files read.
- `populate` in the receipt lookup. The stored order lines are returned with their product ids.
- Case mapping. It covers ASCII letters only, not full Unicode.
- The 'name' sort. `localeCompare` is abstracted as a rank function on names supplied by the caller.
- CategoryPage.SortByKey: stability of `Array.prototype.sort` is not stated. The contract promises sortedness and permutation only.
- CategoryPage.FetchCategoryProducts: for the four sorts, the order among products with equal keys is not stated, although `Array.prototype.sort` keeps their filtered order. The contract promises sortedness and the same products as the filters only.
- React wiring. The pages' own `loading` state (frontend/src/pages/CategoryPage.jsx:21, frontend/src/pages/CheckoutPage.jsx:77), toasts, navigation, `useEffect` and the provider's asynchronous actions are left out, except the quantity-update dispatch in Findings.
- The backend's use of the client's cart lines. The server ignores the `cartItems` the page sends and reads its own cart, so the sent lines are only modelled as a payload.

## Findings

| source | as written | input that shows it | evidently intended | confidence | as-written member | corrected member |
|---|---|---|---|---|---|---|
| frontend/src/context/CartContext_old.jsx:170-177 | after a successful quantity update, `updateCartItem` dispatches UPDATE_ITEM with `response.data.cartItem`, but the PUT response (backend/src/controllers/cartController.js:130-134) has only `message`, `cartItems` and `total`, so the reducer reads `_id` of `undefined` | any successful quantity change while the client cart holds at least one item | dispatch SET_CART with `response.data`, as `addToCart` does at lines 153-156 | not executed; the file is not imported by the application's entry point | CartContext.UpdateAsWrittenThrows | CartContext.AfterUpdateShowsServerCart |
