# Storefront cart, checkout and catalog listing in Dafny

This project models the domain logic of a small Django storefront (`Product-Catalog/Market_App`):

- **The cart-line table.** Each user has one cart, created the first time it is needed. A cart holds lines of (product, quantity). The views change these lines:
  - `add_to_cart` and `quick_add_to_cart` get or create the line, then add one unit;
  - `update_cart_item` sets a quantity or deletes the line;
  - `remove_from_cart` deletes a line;
  - `clear_cart` deletes every line.
- **The totals.** The model layer has `CartItem.total_price` and `Cart.total_items`, `subtotal`, `tax` and `total`. The cart and checkout views compute their own totals, which add a flat 10.00 shipping fee when the subtotal is positive.
- **Checkout.** The totals are computed once and frozen onto a new order. Then the cart's lines are deleted. The model saves that order with `Order.save`, which draws the order number; the handler as written saves a form instance instead (see "Left out").
- **The catalog listing and search suggestions.** `product_list` applies a chain of optional filters and one of four orders. `product_search_api` returns at most ten text matches.

Money is exact, as Django's `Decimal` is. It is an `int` counting thousandths of a currency unit (`Models.Money`). A stored price has two decimals, so it is a multiple of 10 here. The model proves that every cart subtotal is a whole number of cents, so the 10% tax is exact.

Files:
- `wrappers.dfy`: `Option`, `Result` and `Outcome`.
- `models.dfy` (module `Models`): products, line and cart totals, order status codes, `Order`, `OrderItem`.
- `catalog.dfy` (module `Catalog`): ASCII case-insensitive substring match, the filter chain, sort keys and an insertion sort, the listing, the search endpoint.
- `cart_table.dfy` (module `CartTable`): the cart-line table as a sequence of rows in the order they were added, with its constraints. It has the readings the views use: a (cart, product) pair's quantity and line count, a cart's line count and its priced lines. It also has lemmas saying how append, update, delete and bulk delete move each reading.
- `views.dfy` (module `Views`): the view totals and the `Store` class. `Store` has one method per request handler.

The request handlers take the request's facts as parameters: the user id, whether the method is POST, whether the checkout form validated, and the already-parsed quantity.

The code has none of the following rules, and the model adds none:
- nothing checks or decrements stock;
- checkout accepts an empty cart (its totals are all zero) and creates no order items;
- the listing shows inactive products too and has no in-stock filter;
- only the sort keys `price_low`, `price_high` and `name` change the order.

## Model

| member | source | states |
|---|---|---|
| `Models.FindProduct` | Product-Catalog/Market_App/views.py:262 | The product found by key has that key and is in the table; nothing is found only when no row has the key |
| `Models.ValidPrice` | Product-Catalog/Market_App/models.py:26-30 | A valid price is a whole number of cents between 1 and 9,999,999,999, i.e. at least 0.01 with two decimals and ten digits |
| `Models.ValidProduct` | Product-Catalog/Market_App/models.py:26-35 | A validated product has a positive whole-cent price and non-negative stock |
| `Models.InStock` | Product-Catalog/Market_App/models.py:51-54 | In stock iff at least one unit; a valid product that is not in stock has exactly zero stock |
| `Models.LineTotal` | Product-Catalog/Market_App/models.py:128-131 | A valid line's total is at least its unit price and a whole number of cents; quantity 0 costs nothing |
| `Models.LineTotalStep` | Product-Catalog/Market_App/models.py:128-131 | One more unit adds exactly one unit price to the line total |
| `Models.TotalItems` | Product-Catalog/Market_App/models.py:83-86 | The cart's item count is at least its number of lines, since every quantity is at least 1 |
| `Models.TotalItemsAppend` | Product-Catalog/Market_App/models.py:83-86 | The item count of two groups of lines is the sum of their counts |
| `Models.Subtotal` | Product-Catalog/Market_App/models.py:88-91 | The subtotal of valid lines is a whole number of cents, at least 0.01 per line, and positive iff the cart has lines; an empty cart's subtotal is 0 |
| `Models.SubtotalAppend` | Product-Catalog/Market_App/models.py:88-91 | The subtotal of two groups of lines is the sum of their subtotals |
| `Models.Tax` | Product-Catalog/Market_App/models.py:93-96 | Tax is exactly a tenth of a whole-cent subtotal, and lies between 0 and the subtotal |
| `Models.CartTotal` | Product-Catalog/Market_App/models.py:98-101 | The model total of valid lines is exactly 1.1 times the subtotal, with no shipping, and it is 0 iff the cart is empty |
| `Models.TwoLineCartTotals` | Product-Catalog/Market_App/models.py:83-101 | Two units at 10.00 and one at 5.00: 3 items, subtotal 25.00, tax 2.50, total 27.50 |
| `Models.StatusCode` | Product-Catalog/Market_App/models.py:136-154 | Every status is stored as a non-empty code that fits the 20-character column |
| `Models.StatusFromCode` | Product-Catalog/Market_App/models.py:136-154 | A stored code that names a status is that status's code |
| `Models.StatusCodeRoundTrip` | Product-Catalog/Market_App/models.py:136-154 | Reading back the stored code of a status gives that status |
| `Models.Order.constructor` | Product-Catalog/Market_App/models.py:149-168 | A new order has no number yet, status pending, and the totals it is given |
| `Models.Order.Save` | Product-Catalog/Market_App/models.py:180-188 | Saving an order without a number gives it ten upper-case letters or digits; saving an order that has a number keeps it |
| `Models.OrderItemTotal` | Product-Catalog/Market_App/models.py:209-212 | An order line's total is its snapshotted price times its quantity; it reads nothing of the current product |
| `Catalog.Contains` | Product-Catalog/Market_App/views.py:97-98 | The query occurs in the text iff it equals the piece of the text at some offset |
| `Catalog.IContains` | Product-Catalog/Market_App/views.py:97-98 | A case-insensitive match holds iff some offset of the text agrees with the query letter by letter, up to ASCII case; so the empty query matches every text |
| `Catalog.IContainsIgnoresQueryCase` | Product-Catalog/Market_App/views.py:97-98 | Upper-casing a letter of the query does not change what it matches |
| `Catalog.Select` | Product-Catalog/Market_App/views.py:96-112 | One filter step keeps exactly the rows that satisfy its criterion, each as often as in its input |
| `Catalog.SelectIf` | Product-Catalog/Market_App/views.py:95-112 | A filter step runs only when its parameter is given; otherwise every row stays |
| `Catalog.FilterChain` | Product-Catalog/Market_App/views.py:93-112 | The chain of search, category, minimum and maximum price steps keeps exactly the rows that satisfy every given filter |
| `Catalog.LexLeTotal` | Product-Catalog/Market_App/views.py:120-121 | Of two names, one sorts no later than the other |
| `Catalog.LexLeTransitive` | Product-Catalog/Market_App/views.py:120-121 | The name order is transitive |
| `Catalog.KeyOf` | Product-Catalog/Market_App/views.py:115-121 | `price_low`, `price_high` and `name` are the only keys that choose price ascending, price descending and name order; any other key keeps newest first |
| `Catalog.BeforeTotal` | Product-Catalog/Market_App/views.py:114-121 | Every order compares any two products |
| `Catalog.BeforeTransitive` | Product-Catalog/Market_App/views.py:114-121 | Every order is transitive |
| `Catalog.Insert` | Product-Catalog/Market_App/views.py:114-121 | Inserting a product adds exactly that product to the rows |
| `Catalog.InsertSorted` | Product-Catalog/Market_App/views.py:114-121 | Inserting into sorted rows leaves them sorted |
| `Catalog.SortBy` | Product-Catalog/Market_App/views.py:114-121 | The sorted rows are a permutation of the input, ordered by the key |
| `Catalog.Listing` | Product-Catalog/Market_App/views.py:89-121 | The listing holds exactly the table's products that satisfy every given filter, as often as in the table, ordered by the key the sort parameter chooses |
| `Catalog.ListingAsWritten` | Product-Catalog/Market_App/views.py:102-104 | As written, the listing fails exactly when a category is given; otherwise it equals the corrected listing |
| `Catalog.CategoryFilterFailsAsWritten` | Product-Catalog/Market_App/views.py:102-104 | A category filter that a product satisfies lists it in the corrected listing, while the listing as written fails |
| `Catalog.Take` | Product-Catalog/Market_App/views.py:404-406 | The first n rows: a prefix of exactly min(n, number of rows) rows, in the same sort order, and all rows when there are at most n |
| `Catalog.Search` | Product-Catalog/Market_App/views.py:400-417 | A query shorter than two characters gets nothing. Otherwise it returns exactly min(10, number of matches) table products, each matching the query in name or description, newest first |
| `Catalog.SearchIsListingPrefix` | Product-Catalog/Market_App/views.py:402-406 | The suggestions are the first ten products of the default listing for the same search text |
| `Catalog.SearchReturnsAllFewMatches` | Product-Catalog/Market_App/views.py:403-406 | When at most ten products match, the suggestions are exactly the matches |
| `CartTable.FindLine` | Product-Catalog/Market_App/views.py:266-270 | The line found is the cart's line for that product; none is found only when the cart has no such line |
| `CartTable.FindItem` | Product-Catalog/Market_App/views.py:288 | The line found has that key and is in the given cart; none is found only when no line of that cart has the key |
| `CartTable.AddUnit` | Product-Catalog/Market_App/views.py:266-275 | A missing line is appended with the next key and quantity 1; an existing line's quantity rises by 1 in place, keeping its key |
| `CartTable.AddUnitKeepsKeys` | Product-Catalog/Market_App/views.py:266-275 | Getting or creating a line and adding one unit keeps every existing row's key, cart and product and changes no row of another pair. It adds a row only when the pair had none, and a line found by key before is found after |
| `CartTable.RemoveAt` | Product-Catalog/Market_App/views.py:290 | Deleting a line leaves one line fewer |
| `CartTable.WithoutCart` | Product-Catalog/Market_App/views.py:318 | Deleting a cart's lines keeps exactly the lines of other carts |
| `CartTable.TheLine` | Product-Catalog/Market_App/models.py:122 | Since each (cart, product) pair has at most one line, a pair's quantity is that line's quantity and its line count is 1 |
| `CartTable.AtMostOneLine` | Product-Catalog/Market_App/models.py:122 | A pair has at most one line; it has one iff the lookup finds it, and its quantity is 0 when it has none |
| `CartTable.ForeignLineNotFound` | Product-Catalog/Market_App/views.py:288 | A line of another cart is not found through this cart, even by its own key |
| `CartTable.Append` | Product-Catalog/Market_App/views.py:266-270 | Appending a line adds its quantity, one line and its priced line to its own pair and cart, and nothing to any other |
| `CartTable.Update` | Product-Catalog/Market_App/views.py:302-304 | Setting a line's quantity changes only its pair's quantity and its cart's subtotal, by the difference; line counts stay |
| `CartTable.Remove` | Product-Catalog/Market_App/views.py:290 | Deleting a line removes exactly its quantity and one line from its own pair and cart |
| `CartTable.Clear` | Product-Catalog/Market_App/views.py:318 | After deleting a cart's lines that cart has no lines and no quantities; every other cart keeps its quantities, line count and priced lines |
| `CartTable.ClearEffects` | Product-Catalog/Market_App/views.py:318 | The same, for every cart and product at once |
| `CartTable.AppendWellFormed` | Product-Catalog/Market_App/models.py:115-122 | A new line with a fresh key and quantity 1 for a pair that has none keeps the table's constraints |
| `CartTable.UpdateWellFormed` | Product-Catalog/Market_App/models.py:115-122 | Setting a positive quantity keeps the table's constraints |
| `CartTable.RemoveWellFormed` | Product-Catalog/Market_App/models.py:115-122 | Deleting a line keeps the table's constraints |
| `CartTable.WithoutCartWellFormed` | Product-Catalog/Market_App/models.py:115-122 | Deleting a cart's lines keeps the table's constraints |
| `CartTable.WellFormed` | Product-Catalog/Market_App/models.py:115-122 | The table's declared constraints: every quantity at least 1, distinct primary keys below the next key, at most one row per (cart, product) |
| `CartTable.WellFormedKeys` | Product-Catalog/Market_App/models.py:122 | In a well-formed table a row is identified both by its primary key and by its (cart, product) pair |
| `CartTable.LinesIn` | Product-Catalog/Market_App/views.py:437 | `cart.items.count()`: the number of rows that belong to the cart |
| `CartTable.LinesInCounts` | Product-Catalog/Market_App/views.py:437 | The cart's row count plus the other carts' rows is the table size; the count is 0 iff no row names the cart |
| `CartTable.CartLines` | Product-Catalog/Market_App/views.py:238 | `cart.items.all()`, priced: it has exactly as many lines as the cart has rows |
| `CartTable.CartLinesRows` | Product-Catalog/Market_App/views.py:331 | Every priced line of a cart comes from one of that cart's rows, at its product's current price |
| `CartTable.CartLinesValid` | Product-Catalog/Market_App/models.py:26-34 | Against a catalog of valid products, every cart line has a valid price and a quantity of at least 1 |
| `Views.ViewTotals` | Product-Catalog/Market_App/views.py:241-244 | The view's tax is exactly a tenth of the subtotal. Shipping is 10.00 iff the cart has lines. The view total is the model total plus shipping. An empty cart's totals are all zero |
| `Views.TwoLineViewTotals` | Product-Catalog/Market_App/views.py:334-337 | Two units at 10.00 and one at 5.00: subtotal 25.00, tax 2.50, shipping 10.00, total 37.50 |
| `Views.Store.LinesValid` | Product-Catalog/Market_App/models.py:115-118 | In a valid store every cart's lines are valid, and a cart has as many priced lines as rows |
| `Views.Store.OtherUsersLineHidden` | Product-Catalog/Market_App/views.py:288 | A line in another user's cart is not found through this user's cart |
| `Views.Store.GetOrCreateCart` | Product-Catalog/Market_App/views.py:263 | Returns the user's existing cart unchanged, or records a new empty cart for the user; no line changes |
| `Views.Store.AddOne` | Product-Catalog/Market_App/views.py:266-275 | The new table is exactly the old one with the line appended (quantity 1, fresh key) when the pair had none, or with that one line's quantity raised by 1 in place, keeping its key. Either way the pair then has one line, its quantity has risen by 1, the cart subtotal has risen by the product's price, and no other pair changed |
| `Views.Store.AppendLine` | Product-Catalog/Market_App/views.py:266-270 | Appends exactly one new line with a fresh key and quantity 1; every other pair is unchanged |
| `Views.Store.IncrementLine` | Product-Catalog/Market_App/views.py:272-275 | Raises that one line's quantity by exactly 1 without adding a line; the cart subtotal rises by the product's price |
| `Views.Store.AddForUser` | Product-Catalog/Market_App/views.py:263-275 | Gets or creates the user's cart, then adds one unit exactly as `AddUnit` describes; only the user's cart entry may be new. For a user who had no cart the line is created and the cart then has exactly one line |
| `Views.Store.AddToCart` | Product-Catalog/Market_App/views.py:260-282 | An unknown product is not found and nothing changes. Otherwise the new table is exactly the get-or-create-and-add-one of the old one, so every line keeps its key and later remove/update calls still find it. The result reports a new line or the new quantity, and every other user keeps their cart. A user's first add, into a new cart, always creates the line, with quantity 1 |
| `Views.Store.QuickAddToCart` | Product-Catalog/Market_App/views.py:420-445 | A non-POST request is refused and changes nothing. Otherwise the new table is exactly the get-or-create-and-add-one of the old one, every other user keeps their cart, and the answer is the cart's number of lines. A user's first add appends one line with quantity 1 and answers 1 |
| `Views.Store.RemoveFromCart` | Product-Catalog/Market_App/views.py:285-292 | Deletes the addressed line iff it is in the user's own cart, and nothing else; otherwise not found and nothing changes |
| `Views.Store.DeleteLine` | Product-Catalog/Market_App/views.py:290 | Deleting a line empties its pair, lowers its cart's line count by one and leaves every other pair unchanged |
| `Views.Store.UpdateCartItem` | Product-Catalog/Market_App/views.py:295-310 | On POST: a positive quantity becomes the line's exact quantity, and any other quantity deletes the line. A line outside the user's cart is not found. Every other pair is unchanged. A non-POST request changes nothing |
| `Views.Store.ClearCart` | Product-Catalog/Market_App/views.py:313-321 | On POST the user's cart ends with zero lines and every other cart is unchanged; a user without a cart is not found; a non-POST request changes nothing |
| `Views.Store.EmptyCart` | Product-Catalog/Market_App/views.py:318 | Deletes exactly the cart's lines |
| `Views.Store.CartCount` | Product-Catalog/Market_App/views.py:124-127 | The listing's cart count: creates the user's cart if needed, changes no line and no other user's cart, and answers the cart's number of lines, 0 for a new cart |
| `Views.Store.CartView` | Product-Catalog/Market_App/views.py:234-256 | Shows the totals of the user's cart lines, creating the cart if needed and leaving every other user's cart as it was. The tax is exact, and shipping is charged iff the cart has lines. A user who had no cart sees all-zero totals |
| `Views.Store.Checkout` | Product-Catalog/Market_App/views.py:328-368 | Fails when the user has no cart. A valid POST creates a pending, numbered order whose subtotal, tax and total are those computed before the lines were deleted, then leaves the cart with zero lines and other carts untouched. Any other request shows those totals and changes nothing |

## Left out

- Authentication, product add/edit/delete, templates, flash messages, redirects and `next` URLs, the shape of JSON responses, the profile, wishlist and order-success pages: framework plumbing with no domain rule.
- `login_required`: the user is a parameter of each handler; anonymous requests are not modelled.
- The random related products of `product_detail` (`order_by('?')`): a random draw with no rule to state.
- `product_list` and `product_detail` as handlers: the model has `product_list`'s filter and sort (`Catalog.Listing`) and both pages' cart-count step (`Views.Store.CartCount`), but not their rendering, `product_detail`'s product lookup or its related products. The cart-count step creates the user's cart, so a user who has only browsed has a cart; `ClearCart` then succeeds with nothing to delete and `Checkout` shows zero totals. A user who reaches `ClearCart` or `Checkout` without any prior `CartCount`, `CartView` or add gets `NotFound` or `CartDoesNotExist`, as the code does for a user with no cart row.
- Parsing request parameters: `int(...)` of the posted quantity can raise, raw price strings go to the database, and the category parameter is a string. Here they arrive already parsed as an `int`, optional amounts and an optional category key.
- Checkout builds its record through `ProductForm` and calls that form instance's `save`, so as written it writes a product row, not an order, and no order number is drawn. The model instead creates an `Order` with what the handler sets (owner and the frozen totals) and saves it with `Order.save`, so the order number is a modelling choice. The contact and address fields and the form's validation are a flag.
- Checkout creates no `OrderItem` rows in the code. `OrderItem` is modelled only for its total price.
- The order's decimal columns round to two places when saved. The model stores the exact totals; the tax can carry a third decimal.
- `order_number` is declared unique. A drawn number that collides would fail the save; the model does not track earlier orders.
- `Cart.get_total_price` refers to a field a cart does not have and cannot run.
- `Cart.user` is a plain foreign key, so the database could hold two carts for one user. Every handler that creates a cart uses `get_or_create`; the others look it up (`get_object_or_404` in `clear_cart`, `Cart.objects.get` in `checkout`, a filter on the cart's user in `remove_from_cart` and `update_cart_item`). The model keeps one cart per user.
- The price, stock and quantity validators run only when a form is validated. The model proves that the cart handlers keep every quantity at least 1. It takes valid prices and non-negative stock as a property of the product table (`Views.CatalogValid`). Product add and edit are out of scope. Checkout as written also writes a product row, and the model does not capture that write.
- The product table is fixed during the modelled handlers, because editing products is out of scope. An order's totals are constant fields of `Order`, so they cannot follow later price changes.
- Database collation and tie order: the model sorts names by character code. Among equal keys the insertion sort keeps the table order by construction. No contract states that, and the database promises no particular order there.
- `icontains` folds ASCII letters only. How non-ASCII letters fold depends on the database.
- Concurrency and transactions: the handlers have none.
- `CartItem.quantity` is an `IntegerField`, which is bounded on most database backends. The model's quantity is an unbounded `int`, so an overflow of the column is not modelled.

## Findings

| source | as written | input that shows it | evidently intended | confidence | as-written member | corrected member |
|---|---|---|---|---|---|---|
| Product-Catalog/Market_App/views.py:102-104 | `product_list` filters on `category`, but the product model (Product-Catalog/Market_App/models.py:22-43) declares no category field, so the query cannot resolve the keyword and the view fails | a product-list request with `category=1` | list only the products of that category, combined with the other filters | not executed; high that the keyword cannot resolve | `Catalog.CategoryFilterFailsAsWritten` | `Catalog.Listing` |
