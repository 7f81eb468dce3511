# SakiFarm shop — a Dafny model

This project models the core of the SakiFarm shop: a Go backend and a React front end for a farm-produce store in Kenya. In the backend it covers:

- the HTTP handlers for the cart, orders, the catalogue, reviews, authentication and mobile payments (M-Pesa and Airtel Money);
- the services behind those handlers.

In the front end it covers:

- the cart and session providers;
- the pagination strip;
- the pages for checkout, sign-in, code entry, password reset, the help page, the product catalogue, the product detail page, the admin product form and the admin dashboard.

Go and TypeScript files are cited by their path in the repository.

How the model is built:

- **The database.** The backend's database is one `Store.Database` object. Its fields are the tables. Each is a `seq` of the records of `backend/models/models.go` or of the handlers' own `Payment` record. The handlers also use fields that `models.go` does not declare: `IsImported`, `ShippingFee` and `Featured` on products, `ParentID` and `LikesCount` on reviews, and the `ReviewLike` record. The model supplies them with the types the handlers' code assumes. Handlers that write are methods whose `modifies` clauses name exactly the tables they touch. Read-only handlers are functions over the tables.
- **Replies.** A reply is an `Http.Status` (the code and the message the handler writes) together with the body it returns, when there is one.
- **Front-end pages and providers.** Each is a class whose fields are its React state. Its handlers are methods. Each method's `ensures` ties the new state, the request it sends, and the toast or navigation it triggers to the old state and to the server's answer. The answer is a parameter.
- **Outside inputs.** The clock, random bytes, the password hasher, the token signer and the payment providers' HTTP replies are parameters. Their outcomes are modelled as datatypes.
- **Money and integers.** Amounts are `real` (Go `float64`, without rounding). Quantities, stock and ids are `int`/`nat`, with Go's zero values modelled where the code relies on them. The listing handlers' query integers are 64-bit: `Atoi` saturates, and the offset and page-count arithmetic wraps (`Paging`).

Shared modules: `Wrappers` (Option), `Seqs` (sums, counts, filters, maps over sequences), `Text` (decimal rendering and parsing, trimming, lower-casing, substring search, split and join), `Http` (status codes and messages), `Models` (the records), `Store` (the database class and its table-wide updates), `Paging` (query-string parsing and offsets) and `Ui` (replies, toasts and the `message`-or-fallback rule of the pages).

## Model

| member | source | states |
|---|---|---|
| Store.ProductIndex | backend/handlers/orders.go:74-79 | the lookup finds a product with the id, and finds nothing exactly when no product has that id |
| Store.OrderIndex | backend/handlers/orders.go:247-252 | the lookup finds an order with the id, and finds nothing exactly when no order has that id |
| Store.AdjustStock | backend/handlers/orders.go:126-128 | one `stock + delta` update moves the stock of the rows with that id by delta and leaves every other field and row alone |
| Store.ApplyItems | backend/handlers/orders.go:126-128 | the per-line stock loop, one `AdjustStock` per line in line order, by sign times the line quantity; the product table keeps its length |
| Store.ApplyItemsStock | backend/handlers/orders.go:126-128 | a per-line stock loop moves each product's stock by sign times that product's total demand over all lines, and changes nothing else |
| Store.ApplyItemsStockAt | backend/handlers/orders.go:126-128 | the same fact for one product row |
| Store.ApplyItemsUndo | backend/handlers/orders.go:328-332 | taking an order's lines out of stock and putting them back restores the product table exactly |
| Store.UpdateStockPerLine | backend/handlers/orders.go:126-128 | the imperative loop leaves the product table equal to the per-line update of its old value |
| Paging.QueryInt | backend/handlers/orders.go:161-162 | a missing parameter gives its default; a present one is read by `Paging.Atoi` |
| Paging.Atoi | backend/handlers/orders.go:161-162 | a malformed string gives 0 (the dropped error); a number within 64 bits parses to itself, and one beyond either end saturates to that end, as `strconv.Atoi` does |
| Paging.QueryIntOfDecimal | backend/handlers/orders.go:161-162 | a page or limit written in decimal and within 64 bits is read back as itself |
| Paging.Wrap64 | backend/handlers/orders.go:165 | the 64-bit two's-complement result: in range, equal to the exact value modulo 2^64, and the exact value itself when that is in range |
| Paging.Offset | backend/handlers/orders.go:165 | `(page - 1) * limit` in wrapping 64-bit `int`: equal to the exact product whenever neither step overflows |
| Paging.PageCount | backend/handlers/products.go:169 | `(total + int64(limit) - 1) / int64(limit)` with each step wrapping, so the result is always a 64-bit value (`Paging.PageCountExact` gives the exact value when nothing overflows) |
| Paging.TruncDiv | backend/handlers/orders.go:194 | Go's division, which truncates toward zero, agrees with Euclidean division on non-negative operands |
| Paging.Window | backend/handlers/orders.go:183 | offset and limit give at most `limit` rows, each being the row that many places after the offset; a non-positive offset with no binding limit keeps every row |
| Paging.PageCountIsCeiling | backend/handlers/orders.go:194 | for a positive limit, while `total + limit` fits in 64 bits, `pages` (computed with wrapping `int64` steps and truncating division) is the ceiling of total/limit |
| Paging.WindowHolds | backend/handlers/orders.go:165-183 | a row within `limit` places after the offset is shown at its place in the window |
| Paging.RowOnItsPage | backend/handlers/orders.go:165-194 | row i appears on page i/limit + 1 at the wrapped offset, and that page is at most the page count, for tables short enough not to overflow |
| Orders.FirstLineError | backend/handlers/orders.go:73-83 | the reply of the first rejected line: there is none exactly when every line on its own names a product whose stock covers it, and any reply is that of some line |
| Orders.FirstLineErrorAt | backend/handlers/orders.go:73-83 | when lines before k pass and line k fails, the request is answered with line k's error |
| Orders.PriceLine | backend/handlers/orders.go:85-93 | a checked line keeps its product and quantity, takes the product's current price, and totals price × quantity |
| Orders.PriceLines | backend/handlers/orders.go:73-93 | one priced line per request line, in order |
| Orders.PriceItems | backend/handlers/orders.go:69-94 | the loop stops with the first rejected line's reply; otherwise it returns the priced lines and their subtotal |
| Orders.PriceOne | backend/handlers/orders.go:74-93 | one pass of the loop returns that line's verdict and, when it passes, its priced line |
| Orders.TotalsBounded | backend/handlers/orders.go:96-99 | with non-negative line totals, the subtotal and the 16% tax are non-negative and the total is at least the 200 shipping fee |
| Orders.DemandCovered | backend/handlers/orders.go:73-128 | the check the handler evidently intends: every product's stock covers the total quantity of all lines naming it; `Orders.CoveredDemandKeepsStock` proves it is exactly the condition under which decrementing keeps stock non-negative |
| Orders.CoveredDemandKeepsStock | backend/handlers/orders.go:124-128 | decrementing the lines leaves every stock non-negative exactly when each product's total demand is covered by its stock |
| Orders.DuplicateLinesOversell | backend/handlers/orders.go:73-128 | two lines of 5 for a product with stock 6 each pass the per-line check, and the stock then ends at -4 |
| Orders.ValidCreateRequest | backend/handlers/orders.go:35-47 | the `validate` tags of the order request: each line with a product id and quantity at least 1, both addresses with their required fields (`backend/models/models.go:97-107`), method `mpesa` or `airtel`, and a phone number |
| Orders.CreateOrder | backend/handlers/orders.go:55-154 | an invalid body, or a request with a rejected line, is answered with no write. Otherwise the order is stored pending, with its number, priced lines, shipping, tax and total. Each line's quantity leaves stock, then the payment is started, and an M-Pesa failure answers 500 after the order and stock writes |
| Orders.PlaceOrder | backend/handlers/orders.go:119-143 | the order row is appended, the stock is decremented per line (non-negative when demand is covered), and one payment for the order's total is recorded; the reply is created unless the M-Pesa push fails |
| Orders.InitiatePayment | backend/handlers/orders.go:130-143 | only the M-Pesa push can fail; either way one payment record for the order and amount is appended |
| Orders.Listable | backend/handlers/orders.go:171-178 | exactly the orders the caller may list: all for an admin, else the caller's own, narrowed by a non-empty status filter |
| Orders.GetOrders | backend/handlers/orders.go:156-197 | the reply is ok exactly when the parsed limit is non-zero; a zero limit panics into 500. The body echoes the parsed page and limit, and its total counts the listable orders. Its rows are exactly the window, at the 64-bit offset `(page-1)*limit`, of the listable orders newest first, and `pages` is the wrapped page count. A non-negative limit bounds the rows, and a positive one without overflow makes `pages` the ceiling of total/limit. Every row shown is an order the caller may list |
| Text.ParseInt | backend/handlers/orders.go:161-162 | the syntax `strconv.Atoi` accepts (an optional sign, then at least one digit) is exactly when a value is returned; a leading `-` gives a value at most 0 and no sign a value at least 0 |
| Orders.ListedOrderOnItsPage | backend/handlers/orders.go:156-197 | every order the caller may list is shown when page `i / limit + 1` is requested with that limit, and that page is one of the counted pages |
| Orders.VisibleOrderIndex | backend/handlers/orders.go:206-217 | finds an order with the id that the caller owns or an admin sees, and finds nothing exactly when there is none |
| Orders.GetOrder | backend/handlers/orders.go:199-227 | the order for its owner or an admin; not-found exactly when no visible order has that id |
| Orders.ApplyStatusUpdate | backend/handlers/orders.go:257-275 | the status is replaced, and tracking number and notes only by non-empty values. The delivery time is set to now only the first time the status is delivered. No other field changes |
| Orders.StatusUpdateIdempotent | backend/handlers/orders.go:257-270 | repeating an update at a later time changes nothing more |
| Orders.DeliveredAtSetOnce | backend/handlers/orders.go:266-270 | once set, the delivery time survives every later run of updates |
| Orders.OrderStatusAllowed | backend/handlers/orders.go:50 | the `oneof` list: pending, confirmed, processing, shipped, delivered or cancelled |
| Orders.UpdateOrderStatus | backend/handlers/orders.go:229-286 | a status outside the list answers 400 and an unknown id 404, both without writes; otherwise that order alone becomes its updated value |
| Orders.Cancellable | backend/handlers/orders.go:315-319 | an order can be cancelled unless it is delivered or already cancelled |
| Orders.CancelOrder | backend/handlers/orders.go:288-338 | a caller who cannot see the order gets 404. A delivered or cancelled order is refused unchanged. Otherwise that order alone becomes cancelled and every line goes back into stock |
| Orders.GenerateReceipt | backend/handlers/orders.go:340-386 | ok exactly when the caller sees the order, it is delivered and the PDF renders; the file is named `receipt-<order number>.pdf`; a visible order that is not delivered gets the delivered-only 400 |
| Orders.Timeline | backend/handlers/orders.go:402-436 | five stages, the first always completed |
| Orders.TimelineMonotone | backend/handlers/orders.go:402-436 | a completed stage has every earlier stage completed |
| Orders.TimelineProgress | backend/handlers/orders.go:402-436 | the number of completed stages: 1 for pending through 5 for delivered, and 2 for any other status, cancelled included |
| Orders.TrackOrder | backend/handlers/orders.go:388-442 | the order with that tracking number and its timeline; not-found exactly when no order carries the tracking number |
| PaymentService.InitiateMPesaPayment | backend/services/payment.go:87-126 | exactly one record is appended: pending, in KES, for the order, amount and phone. A failed token or STK step marks it failed and returns the error. An accepted push stores the CheckoutRequestID as transaction id and the MerchantRequestID as external reference |
| PaymentService.AirtelTransactionId | backend/services/payment.go:144 | the id has the form `TXN-<order id>-<unix seconds>` |
| PaymentService.AirtelIdPieces | backend/services/payment.go:144 | the id splits at its dashes into `TXN`, the order id and the timestamp |
| PaymentService.AirtelTransactionIdsDistinct | backend/services/payment.go:144 | different orders, or one order at different seconds, never share a transaction id |
| PaymentService.InitiateAirtelPayment | backend/services/payment.go:128-168 | exactly one record is appended: pending, in KES, for the order, amount and phone, with the generated `TXN-…` id |
| PaymentService.PaymentIndex | backend/services/payment.go:173 | finds a record matching both the transaction id and the method, and finds nothing exactly when none matches both |
| PaymentService.SetPaymentStatus | backend/services/payment.go:182 | the orders with that id get the new payment status; nothing else changes |
| PaymentService.ProcessPaymentCallback | backend/services/payment.go:170-197 | with no record matching both id and method: an error and no change. A success marks the record `success` with the external reference and the order's payment status `paid`, and leaves stock alone. A failure marks it `failed` and returns the order's lines to stock, whatever its earlier status |
| PaymentService.RepeatedFailureRestocksTwice | backend/services/payment.go:183-194 | two failure callbacks for one order put its lines back twice |
| PaymentHandler.Hex | backend/handlers/payment.go:337 | `%x` gives two lowercase hex digits per byte |
| PaymentHandler.HexInjective | backend/handlers/payment.go:337 | different byte strings give different hex |
| PaymentHandler.TransactionId | backend/handlers/payment.go:334-338 | a transaction id is 16 lowercase hex characters |
| PaymentHandler.TransactionIdUsesFirstHalf | backend/handlers/payment.go:334-338 | two ids agree exactly when the first 8 of their 16 random bytes agree; the other 8 never reach the id |
| PaymentHandler.BindsMobileRequest | backend/handlers/payment.go:47-52 | the `binding:"required"` tags: a non-empty provider and phone number and a non-zero amount |
| PaymentHandler.InitiateMobilePayment | backend/handlers/payment.go:88-148 | an unbound body answers 400 and an unauthenticated caller 401, with no write. Otherwise one record is appended: pending, with reference `SAKI-<id>`. An M-Pesa failure marks it failed and answers 500. An accepted push replaces the reference with the CheckoutRequestID. Airtel stays pending. Any other provider answers 400 and leaves the pending record |
| PaymentHandler.GetPaymentStatus | backend/handlers/payment.go:150-168 | a record with that transaction id, or not-found exactly when there is none |
| PaymentHandler.ReferenceIndex | backend/handlers/payment.go:187 | finds a record whose reference contains the CheckoutRequestID, and finds nothing exactly when no reference contains it |
| PaymentHandler.MPesaCallback | backend/handlers/payment.go:170-199 | an unparsable body answers 400, and every parsable one answers success. ResultCode 0 marks the matched record `completed` and any other code marks it `failed`. With no match, nothing changes |
| PaymentHandler.AcceptedPushIsFound | backend/handlers/payment.go:183-187 | a record whose reference is its CheckoutRequestID is found by the callback carrying that id |
| CartHandlers.CartIndex | backend/handlers/cart.go:84 | finds the user's cart, and finds nothing exactly when the user has none |
| CartHandlers.LineIndex | backend/handlers/cart.go:99 | finds the cart's line for the product, and finds nothing exactly when there is none |
| CartHandlers.StockOf | backend/handlers/cart.go:66-67 | a stock is known exactly when the product exists |
| CartHandlers.LinesOf | backend/handlers/cart.go:34 | exactly the lines of that cart, in row order |
| CartHandlers.OwnedLineIndex | backend/handlers/cart.go:151-153 | the line with that id whose cart belongs to the user; nothing exactly when no such line exists |
| CartHandlers.WithoutId | backend/handlers/cart.go:221 | every line with that id goes and every other line stays |
| CartHandlers.WithoutCart | backend/handlers/cart.go:249 | every line of that cart goes and every other line stays |
| CartHandlers.GetCart | backend/handlers/cart.go:26-49 | unauthenticated callers get 401. Otherwise the reply holds the user's cart with exactly its lines; a user without a cart gets a new empty one, and no other cart changes |
| CartHandlers.QuantityAfterNewCart | backend/handlers/cart.go:84-90 | creating a cart for a user without one changes no quantity held in any cart |
| CartHandlers.QuantityAfterMerge | backend/handlers/cart.go:99-110 | replacing the quantity of the user's line changes only that user's quantity of that product |
| CartHandlers.QuantityAfterNewLine | backend/handlers/cart.go:111-122 | appending the user's first line for a product sets only that user's quantity of that product |
| CartHandlers.EnsureCart | backend/handlers/cart.go:82-95 | afterwards the user has exactly the existing cart or one new cart, and no quantity changes |
| CartHandlers.AddLine | backend/handlers/cart.go:97-122 | succeeds exactly when the stock covers the quantity already in the cart plus the request. Then only that user's quantity of that product grows, by the request. A refusal changes no line. At most one line per cart and product is kept |
| CartHandlers.MergeLine | backend/handlers/cart.go:106-110 | the merged quantity replaces the line's quantity and changes no other cart's or product's quantity |
| CartHandlers.NewLine | backend/handlers/cart.go:113-121 | the new line sets only that user's quantity of that product and keeps lines unique per cart and product |
| CartHandlers.AddToCart | backend/handlers/cart.go:52-125 | a body with product id 0 (refused by `required` on `AddToCartRequest`, lines 20-23) or quantity below 1 is 400 before any lookup, and a missing product is 404. It succeeds exactly for an authenticated caller with such a valid body, an existing product, and stock covering both the request and the merged quantity. It then adds the request to that product's quantity in the caller's cart. No other quantity changes, existing carts stay, and lines stay unique. A refusal leaves the lines unchanged |
| CartHandlers.UpdateCartItem | backend/handlers/cart.go:128-192 | the handler with the quantity tag as evidently intended, so that 0 binds (the as-written binding is `CartHandlers.UpdateCartItemAsWritten`). A negative quantity is 400. A line the caller does not own is 404. Quantity 0 deletes the line. A positive quantity replaces that line's quantity when stock covers it, else 400. Every refusal leaves the lines unchanged |
| CartHandlers.QuantityBindsAsWritten | backend/handlers/cart.go:142 | `required,min=0` on an int as written: only a positive quantity binds, since `required` refuses the zero value |
| CartHandlers.UpdateCartItemAsWritten | backend/handlers/cart.go:128-192 | the handler with the body bound as the tag is written: quantity 0, like any quantity that does not bind, is 400 with the lines unchanged; a positive quantity gets the not-found, stock and replace outcomes of the intended handler |
| CartHandlers.RemoveFromCart | backend/handlers/cart.go:195-227 | deletes the caller's own line with that id and nothing else; any other line id is not-found with no change |
| CartHandlers.ClearCart | backend/handlers/cart.go:230-255 | deletes exactly the lines of the caller's cart; without a cart the reply is `Cart is already empty` and nothing changes |
| CartHandlers.ClearedCartIsEmpty | backend/handlers/cart.go:248-252 | after clearing, the user's cart holds no units of any product |
| CartHandlers.ZeroQuantityRefusedAsWritten | backend/handlers/cart.go:142 | as bound, the update body with quantity 0 is refused, and exactly the positive quantities get through, so the delete-on-zero branch is dead |
| Catalogue.SkuHolder | backend/handlers/admin_product.go:157 | finds a product other than the excepted one holding the SKU, and finds nothing exactly when none does |
| Catalogue.AppendKeepsValid | backend/handlers/admin_product.go:77-106 | appending a product with the next id and an unused SKU keeps ids and SKUs unique |
| Catalogue.UpdateKeepsValid | backend/handlers/admin_product.go:154-182 | rewriting a row under its own id keeps ids and SKUs unique when the SKU is unchanged or held by no other product |
| Catalogue.RemoveKeepsValid | backend/handlers/admin_product.go:245 | deleting a row keeps ids and SKUs unique |
| Catalogue.NewImages | backend/handlers/admin_product.go:112-122 | one image row per non-empty URL, in order, with consecutive fresh ids; a row is primary exactly when it comes from a non-empty first URL |
| Catalogue.NewImagesUrls | backend/handlers/admin_product.go:112-122 | the created rows carry exactly the non-empty URLs, in request order |
| Catalogue.NewImagesPrimaries | backend/handlers/admin_product.go:112-122 | one URL list yields at most one primary image, and none for any other product |
| Catalogue.FilterPrimaries | backend/handlers/admin_product.go:190 | deleting a product's images leaves it no primary image and every other product its own |
| Catalogue.AddImagesKeepsOnePrimary | backend/handlers/admin_product.go:112-122 | adding a product's new rows where it has no primary image keeps at most one primary per product |
| Catalogue.AddNewProductImages | backend/handlers/admin_product.go:106-122 | a new product's image rows keep every image attached to an issued product id and at most one primary per product |
| Catalogue.ReplaceProductImages | backend/handlers/admin_product.go:188-204 | replacing a product's images keeps every image attached to an issued product id and at most one primary per product |
| Catalogue.CreateImages | backend/handlers/admin_product.go:112-122 | the loop appends exactly the rows `NewImages` describes and consumes one id per row |
| Catalogue.ReplaceImages | backend/handlers/admin_product.go:188-204 | the product's old rows go, then its new rows are appended; the image invariant is kept |
| AdminProducts.TagsColumn | backend/handlers/admin_product.go:84-88 | an empty list is stored as `""` and a single tag as itself; every tag occurs in the stored column |
| AdminProducts.NewProduct | backend/handlers/admin_product.go:90-104 | the new row takes the request's SKU, status, import flag and shipping fee, and the joined tags; it has no rating or reviews and is not featured |
| AdminProducts.Edited | backend/handlers/admin_product.go:169-180 | the row takes the request's fields and the joined tags; id, import flag, shipping fee, featured flag, rating and review count stay |
| AdminProducts.Listed | backend/handlers/admin_product.go:49-59 | the admin list's WHERE clauses: category and status equal when given, and the search found by ILIKE in the name or description |
| AdminProducts.GetProducts | backend/handlers/admin_product.go:39-67 | exactly the products passing every non-empty filter (category, status, case-insensitive search in name or description), in table order as a subsequence of the table; no filters list everything |
| AdminProducts.RequestValid | backend/handlers/admin_product.go:21-36 | the `binding` tags of the product body: name, description, category and SKU present, a price that `required` refuses at 0, stock and shipping fee at least 0, and status one of `active`, `inactive`, `draft` |
| AdminProducts.CreateProduct | backend/handlers/admin_product.go:70-128 | an unbound body is 400 and a SKU in use is 409, both without writes. Otherwise the new row is appended with the next id, followed by its image rows. Id and SKU uniqueness and the one-primary rule are kept |
| AdminProducts.InsertProduct | backend/handlers/admin_product.go:106-122 | the product row and then its image rows are appended with consecutive ids, keeping both table invariants |
| AdminProducts.UpdateProduct | backend/handlers/admin_product.go:131-210 | 400, 404, and 409 for a changed SKU held by another product, all without writes. Otherwise only that row is edited. Its images are replaced only when the request lists some, else the image table is untouched. Both table invariants are kept |
| AdminProducts.DeleteProduct | backend/handlers/admin_product.go:213-251 | an unknown product is 404. A product some order item references is only marked inactive; any other row is removed. Ordered products stay findable and uniqueness is kept |
| AdminProducts.KeepIds | backend/handlers/admin_product.go:236-237 | rewriting a row under its own id keeps every product findable |
| AdminProducts.RemoveKeepsOthers | backend/handlers/admin_product.go:245 | removing a row keeps every other product findable |
| AdminProducts.AllowedType | backend/handlers/admin_product.go:263 | the accepted upload types: `image/jpeg`, `image/png` and `image/webp` |
| AdminProducts.UploadProductImage | backend/handlers/admin_product.go:254-282 | accepted exactly for a present JPEG, PNG or WebP file of at most 5·1024·1024 bytes, then answered with the placeholder URL. Otherwise the refusal is, in order: no file, wrong type, too large |
| AdminProducts.ToggleFeatured | backend/handlers/admin_product.go:319-354 | an unbound body is 400 before the lookup and an unknown product is 404; otherwise the flag is set to the requested value, and only that field changes |
| AdminProducts.Categories | backend/handlers/admin_product.go:310-313 | every category once, and only categories some product has |
| AdminProducts.GetProductStats | backend/handlers/admin_product.go:285-316 | the total counts every product, and the active count is the number of products with status `active`, no larger than the total. The low-stock count is of 0 < stock < 10 and the out-of-stock count of stock = 0. There is one row per distinct category, counting its products |
| AdminProducts.ActiveCountMatchesListing | backend/handlers/admin_product.go:39-67 | the stats' active count equals the number of rows the admin list returns for the filter `status=active` alone |
| AdminProducts.CategoryRowsNonEmpty | backend/handlers/admin_product.go:310-313 | no category row counts zero |
| AdminProducts.CategoryRowsCover | backend/handlers/admin_product.go:310-313 | every product's category has a row |
| AdminProducts.StockBucketsPartition | backend/handlers/admin_product.go:303-307 | low stock and out of stock never overlap, and together they are the products with 0 ≤ stock < 10 |
| AdminProducts.CategoryCountsCoverCatalogue | backend/handlers/admin_product.go:310-313 | the category counts add up to the number of products |
| Products.NewProduct | backend/handlers/products.go:71-83 | the stored row takes the request's fields; its status is always `active`, with no rating or reviews, not imported and not featured |
| Products.RequestImages | backend/handlers/products.go:91-99 | one image row per requested image, in order, with consecutive ids and the URL, alt text and primary flag as sent |
| Products.AddRequestImages | backend/handlers/products.go:91-99 | the loop appends exactly those rows and consumes one id per image |
| Products.CreateRequestValid | backend/handlers/products.go:25-37 | the `validate` tags of the create body: a name of at least 2 characters, a price that `required` refuses at 0, a category, and stock at least 0 |
| Products.CreateProduct | backend/handlers/products.go:59-108 | validation requires a name of ≥ 2 characters, a price (positive, since `required` refuses 0), a category and stock ≥ 0. A failing request is 400 and a SKU already held fails the insert with 500, both without writes. Otherwise the product is appended as `active` with its image rows, and SKU uniqueness is kept |
| Products.GetProduct | backend/handlers/products.go:111-130 | the product with the id, and a 404 exactly when there is none |
| Products.Matches | backend/handlers/products.go:146-158 | the listing's WHERE clauses: each non-empty filter must hold (category equal, search found by ILIKE in name, description, brand or tags, status equal) and an empty one does not filter |
| Products.GetProducts | backend/handlers/products.go:132-179 | the reply is ok exactly when the parsed limit is non-zero. The page and limit are echoed, and the total counts the products passing category, search and status (default `active`). The rows are exactly the window of those products, in table order, at the 64-bit offset `(page-1)*limit`, and `totalPages` is the wrapped page count. A non-negative limit bounds the rows, and a positive one without overflow makes `totalPages` the ceiling of total/limit. Every row passes the filters |
| Products.MatchingProductOnItsPage | backend/handlers/products.go:132-179 | every product the filters select is listed when page `i / limit + 1` is requested with that limit, and that page is one of `totalPages` |
| Products.Patch | backend/handlers/products.go:205-238 | each field present in the request takes its value and each absent field keeps the row's; columns the request cannot name stay |
| Products.EmptyPatchIsIdentity | backend/handlers/products.go:205-238 | a request naming no field leaves the row unchanged |
| Products.PatchIdempotent | backend/handlers/products.go:205-238 | applying the same partial update twice equals applying it once |
| Products.PatchLastWins | backend/handlers/products.go:224-226 | a later update's present field wins, and an absent one keeps the earlier result |
| Products.UpdateProduct | backend/handlers/products.go:182-252 | an unbound body is 400 and an unknown id 404. A new SKU held by another product fails the save with 500. All three leave the table unchanged. Otherwise only that row becomes its patched value, and SKU uniqueness is kept |
| Products.DeleteProduct | backend/handlers/products.go:254-267 | every row with the id is removed, all others stay, and the reply is always 200 |
| Products.AddProductImage | backend/handlers/products.go:269-314 | an empty URL is 400, then an unknown product is 404, both without writes; otherwise exactly one row is appended with the requested flags |
| Products.DeleteProductImage | backend/handlers/products.go:316-335 | only rows matching both the image id and the product id go; other products' images stay, and the reply is always 200 |
| Products.AddedImageCanBeSecondPrimary | backend/handlers/products.go:298-303 | adding an image flagged primary to a product that already has one leaves that product with two primary images |
| Reviews.ReviewIndex | backend/handlers/reviews.go:188-192 | the position of the review with the id, `None` exactly when there is none |
| Reviews.OwnedIndex | backend/handlers/reviews.go:315-318 | the position of the review with the id and the user as author, `None` exactly when there is none |
| Reviews.MeanRating | backend/handlers/reviews.go:83-90 | the average rating is 0 over no rows |
| Reviews.MeanTimesCount | backend/handlers/reviews.go:83-90 | the average times the number of rows is the rating total |
| Reviews.GetProductReviews | backend/handlers/reviews.go:48-97 | the listing holds exactly the product's top-level reviews, newest first. `total_reviews` is their number and `average_rating` their mean; replies are left out |
| Reviews.WithRating | backend/handlers/reviews.go:390-393 | only the `rating` and `review_count` of the named product change; every other row is kept |
| Reviews.UpdateProductRating | backend/handlers/reviews.go:375-394 | the product's stored count and mean are those of all its rows, replies included |
| Reviews.SplitCount | backend/handlers/reviews.go:375-394 | a product's rows are its top-level reviews plus its replies |
| Reviews.SplitTotal | backend/handlers/reviews.go:375-394 | when replies keep rating 0, the rating total over all rows equals that over top-level reviews |
| Reviews.StoredRatingCountsReplies | backend/handlers/reviews.go:375-394 | the stored `review_count` is the listing's `total_reviews` plus the replies. With unrated replies, at least one reply and a positive total, the stored rating is below the listed average |
| Reviews.ReviewRequestValid | backend/handlers/reviews.go:25-28 | the `validate` tags of the review body: rating 1 to 5 and a comment of at least 10 characters |
| Reviews.CreateReview | backend/handlers/reviews.go:100-170 | 401 without a user, then 400 on an invalid body, 404 for a missing product and 409 when the user already has a review or reply on it, each with no writes. Success happens exactly otherwise: a 201 appends a review with no likes and the next id, and recomputes the product's stored rating. The table invariants are kept |
| Reviews.AppendKeepsValid | backend/handlers/reviews.go:140-150 | appending a row with a fresh id and no likes, and no clashing top-level review, keeps ids unique, like counters exact, likes pointing at existing reviews and one review per user and product |
| Reviews.AppendReview | backend/handlers/reviews.go:140-150 | the row is appended and the id counter advances by one |
| Reviews.ReplyBlocksReview | backend/handlers/reviews.go:133-137 | once a user has replied on a product, the conflict query finds the reply, so that user can no longer review the product |
| Reviews.ToggledLikes | backend/handlers/reviews.go:195-219 | the user's like is in the new set exactly when it was not before; every other like is unchanged |
| Reviews.ToggledCount | backend/handlers/reviews.go:195-219 | only the liked review's counter changes: one less when the like existed, one more otherwise |
| Reviews.ToggleTwice | backend/handlers/reviews.go:195-219 | liking twice restores both the like set and the counter |
| Reviews.ToggleKeepsCounts | backend/handlers/reviews.go:195-219 | after a toggle, each review's counter still equals its number of likes |
| Reviews.ToggleKeepsOthers | backend/handlers/reviews.go:195-219 | after a toggle, every like still names an existing review and no user has two top-level reviews of a product |
| Reviews.LikeReview | backend/handlers/reviews.go:173-220 | 401 without a user and 404 for a missing review, with no writes. Otherwise the like is toggled and the counter moves with it, answering `Review unliked` or `Review liked`. The table invariants are kept |
| Reviews.ReplyCommentValid | backend/handlers/reviews.go:30-32 | the `validate` tag of the reply body: a comment of at least 5 characters |
| Reviews.ReplyToReview | backend/handlers/reviews.go:223-285 | 401, 400 for a comment under 5 characters and 404 for a missing parent, with no writes. Otherwise a 201 appends a reply on the parent's product with rating 0 and the parent's id. Invariants are kept, replies stay unrated, and the stored rating is not recomputed |
| Reviews.UpdateReview | backend/handlers/reviews.go:288-333 | 401, 400 and 404 when the row is not the user's, with no writes. Otherwise only that row's rating and comment change and the product's stored rating is recomputed. No one else's row is ever changed, and the invariants are kept |
| Reviews.ApplyEdit | backend/handlers/reviews.go:321-330 | the row's rating and comment are replaced and the product's stored rating is recomputed |
| Reviews.EditKeepsValid | backend/handlers/reviews.go:321-330 | changing a row's rating and comment keeps the table invariants |
| Reviews.WithoutReview | backend/handlers/reviews.go:363 | the remaining rows are exactly those with another id |
| Reviews.DeleteKeepsValid | backend/handlers/reviews.go:358-366 | deleting a row together with its likes keeps every table invariant: each remaining like is of a remaining row and every remaining count still matches |
| Reviews.DeleteReview | backend/handlers/reviews.go:336-372 | 401, and 404 when the row is not the user's, with no writes. Otherwise the review's likes are removed, then its row, and the product's stored rating is recomputed over what remains. The table invariants (unique ids, counted likes, likes of existing rows, one top-level review per user and product) are kept |
| AuthService.ConflictIndex | backend/services/auth.go:32 | the first user sharing the email, username or phone; `None` exactly when no user does |
| AuthService.Register | backend/services/auth.go:29-53 | a clash gives `user already exists…` and a failed hash gives its error, both with no change. Otherwise the user is appended with the next id and the hashed password. No two users ever share an email, a username or a phone |
| AuthService.IdentifierIndex | backend/services/auth.go:60 | the first user whose email, username or phone is the identifier; `None` exactly when there is none |
| AuthService.Login | backend/services/auth.go:56-69 | succeeds exactly when the identifier names a user and the password matches its stored hash, with that user. Every failure is `invalid credentials`, so an unknown identifier and a wrong password cannot be told apart |
| AuthService.LoginAfterRegister | backend/services/auth.go:29-69 | a freshly registered user logs in by email with the password, unless an earlier user holds that email as its username or phone |
| AuthService.LoginWithOtp | backend/services/auth.go:114-121 | a user with the phone, and `user not found` exactly when there is none |
| AuthService.PhoneIndex | backend/services/auth.go:127 | the first user with the phone; `None` exactly when there is none |
| AuthService.ResetPassword | backend/services/auth.go:124-138 | `user not found` for an unknown phone and the hash's error on failure, both with no change. Otherwise only the first such user's password hash is replaced, and identities stay distinct |
| AuthService.ZeroPad6 | backend/services/auth.go:147 | six decimal digits |
| AuthService.ZeroPad6Value | backend/services/auth.go:147 | the padded code reads back as the number drawn |
| AuthService.GeneratedCodes | backend/services/auth.go:141-148 | a draw below 999999 gives a six-digit code that is never `999999`; two draws give the same code exactly when they are equal |
| AuthService.ReplaceCode | backend/services/auth.go:79-91 | the new row is last; the remaining rows are exactly the old rows for another phone or purpose |
| AuthService.FilterKeepsOneRowPerKey | backend/services/auth.go:79-80 | deleting rows keeps at most one row per phone and purpose |
| AuthService.ReplaceCodeLeavesOne | backend/services/auth.go:79-91 | after sending, the table keeps one row per phone and purpose, and the only row for the new key is the new code |
| AuthService.LiveIndex | backend/services/auth.go:102-104 | the first row with that phone, code and purpose that is unused and unexpired; `None` exactly when there is none |
| AuthService.MarkUsed | backend/services/auth.go:108-109 | only that row changes, and it becomes used with the same phone, purpose, code and expiry |
| AuthService.SendOtp | backend/services/auth.go:72-97 | a failed draw returns its error with no change. Otherwise earlier codes for the phone and purpose are replaced by one unused code: the draw padded to six digits, expiring ten minutes ahead. The SMS outcome is returned, and one row per key is kept |
| AuthService.VerifyOtp | backend/services/auth.go:99-112 | succeeds exactly when a live matching code exists, and marks the first one used. Otherwise `invalid or expired OTP` with no change. One row per key is kept |
| AuthService.VerifiedCodeIsSpent | backend/services/auth.go:99-112 | a code that verified never verifies again, at any later time |
| AuthService.FreshCodeVerifies | backend/services/auth.go:72-112 | right after a send, verification succeeds exactly for the new code before its ten minutes are up; every earlier code for the key is dead |
| AuthHandler.NewUser | backend/handlers/auth.go:70-78 | the row handed to the service carries the request's identity, names and password; its role is `customer` and it is not verified |
| AuthHandler.RegisterRequestValid | backend/handlers/auth.go:27-34 | the `validate` tags of the registration body: a username of 3 to 50 characters, a present well-formed email, a password of at least 6 and a phone of at least 10 characters, and both names present |
| AuthHandler.Register | backend/handlers/auth.go:58-103 | an invalid request is a 400 and an existing email, username or phone a 400, both unchanged. A failed hash is a 400 with its message. Otherwise the customer is stored; a token that cannot be signed gives a 500 while the user stays stored, else a 201 with the session. Identities stay distinct, and a session is only ever a customer's |
| AuthHandler.Login | backend/handlers/auth.go:106-142 | an empty field is a 400 and any service refusal a 401 `invalid credentials`. Success happens exactly when the service accepts and the token is signed, giving `Login successful` with the token and that user |
| AuthHandler.SendOtp | backend/handlers/auth.go:145-162 | a missing phone or purpose is a 400 and a failed draw a 500, both unchanged. Otherwise the new code replaces the earlier ones; a failed SMS is a 500 with the code stored, else a 200. One row per key is kept |
| AuthHandler.VerifyOtp | backend/handlers/auth.go:165-182 | an incomplete request is a 400 with no change. The request's own purpose is checked: no live code is a 400 `invalid or expired OTP`, otherwise the first live code is spent and the answer is a 200 |
| AuthHandler.LoginWithOtp | backend/handlers/auth.go:185-227 | the code is checked for purpose `login` whatever the request names. A failure is a 400 with no change; otherwise the code is spent before the user lookup, so an unknown phone is a 401 with the code spent. A token that cannot be signed is a 500, else the session. Success implies a live login code |
| AuthHandler.ResetRequestValid | backend/handlers/auth.go:52-56 | the `validate` tags of the reset body: phone and code present, and a new password of at least 6 characters |
| AuthHandler.Field | backend/handlers/auth.go:230-235 | the string `ShouldBindJSON` leaves in a field: the value of the last member whose key equals the field's tag up to letter case, and "" when no member names it |
| AuthHandler.BindResetRequest | backend/handlers/auth.go:52-56 | the reset request bound from a JSON object: each field that no member names stays "" |
| AuthHandler.ResetPassword | backend/handlers/auth.go:230-253 | an invalid request is a 400 and a dead code for purpose `password_reset` a 400 `Invalid OTP`, both unchanged. Otherwise the code is spent, then an unknown phone or a failed hash is a 500; else only that user's hash is replaced. A password never changes without a live reset code |
| AdminDashboard.GetStats | backend/handlers/admin_dashboard.go:56-87 | all orders and products are counted. Pending counts `pending` or `processing` orders, low stock counts stock under 10, and users count non-admins; each count is at most its table. Revenue sums the delivered orders' totals |
| AdminDashboard.RevenueIsDeliveredSum | backend/handlers/admin_dashboard.go:62-66 | the revenue, taken order by order, equals the sum of the delivered orders' totals |
| AdminDashboard.NoDeliveriesNoRevenue | backend/handlers/admin_dashboard.go:62-66 | with no delivered order the revenue is 0 (the `COALESCE`) |
| AdminDashboard.RevenueNonNegative | backend/handlers/admin_dashboard.go:62-66 | with non-negative order totals the revenue is not negative |
| AdminDashboard.DashboardLowStockSplits | backend/handlers/admin_dashboard.go:81-84 | the dashboard's low-stock count is the product statistics' low-stock and out-of-stock counts plus the products with negative stock |
| AdminDashboard.ItemImage | backend/handlers/admin_dashboard.go:124-126 | the first loaded image's URL, or `""` when none is loaded |
| AdminDashboard.ItemSummaryOf | backend/handlers/admin_dashboard.go:117-126 | a line's summary keeps its price and quantity and takes the product's name, or `""` when the product is gone. Its image is `""`, because the product's images are not preloaded |
| AdminDashboard.UserIndex | backend/handlers/admin_dashboard.go:104 | the position of the user with the id, `None` exactly when there is none |
| AdminDashboard.OrderSummaryHead | backend/handlers/admin_dashboard.go:101-115 | the summary keeps the order's id, total and status. The customer is the user's full name and email, or `Unknown` and `unknown@example.com` when the user is gone |
| AdminDashboard.SummarizeItems | backend/handlers/admin_dashboard.go:118-129 | one summary per order line, in line order |
| AdminDashboard.GetOrders | backend/handlers/admin_dashboard.go:89-137 | one summary per order, newest first, each with its customer and one entry per line, and no line carries an image because the products' images are not preloaded |
| AdminDashboard.UserSummaryOf | backend/handlers/admin_dashboard.go:156-175 | a customer's summary counts all their orders (at most the table) and sums the totals of their delivered orders |
| AdminDashboard.GetUsers | backend/handlers/admin_dashboard.go:140-181 | exactly the non-admin users, newest first, each with their order statistics; every summary is of a stored customer |
| AdminDashboard.SpentWithinRevenue | backend/handlers/admin_dashboard.go:62-66 | with non-negative totals, what one customer spent is at most the dashboard's revenue |
| AdminDashboard.StatusListsNested | backend/handlers/admin_dashboard.go:196 | every status the dashboard accepts, the order handler accepts too. `confirmed` is accepted only by the order handler |
| AdminDashboard.IsValidStatus | backend/handlers/admin_dashboard.go:196-203 | the loop finds the status exactly when it is on the dashboard's list |
| AdminDashboard.UpdateOrderStatus | backend/handlers/admin_dashboard.go:184-221 | an empty status is a 400 and one off the list a 400 `Invalid status`, both unchanged. Otherwise every order with the id gets the status and nothing else changes: no delivery time and no stock. A missing id still answers 200 |
| CartContext.CartTotal | frontend/src/contexts/CartContext.tsx:189-191 | the sum of price times quantity over the lines; with non-negative prices and quantities it is not negative |
| CartContext.DeliveryFee | frontend/src/contexts/CartContext.tsx:193-200 | the shipping fee times quantity over the imported lines with a non-zero fee; with non-negative fees and quantities it is not negative |
| CartContext.ItemsCount | frontend/src/contexts/CartContext.tsx:202-204 | the number of units in the cart: not negative for non-negative quantities, and at least the number of lines when every line holds a unit |
| CartContext.CartTotalAppend | frontend/src/contexts/CartContext.tsx:189-191 | the cart total of two lists joined is the sum of their totals |
| CartContext.DeliveryFeeAppend | frontend/src/contexts/CartContext.tsx:193-200 | the delivery fee of two lists joined is the sum of their fees |
| CartContext.NoImportedItemsNoFee | frontend/src/contexts/CartContext.tsx:193-200 | with no imported item that has a shipping fee, the delivery fee is 0 |
| CartContext.ExampleCart | frontend/src/contexts/CartContext.tsx:189-204 | a worked example beside the append lemmas: two local units at 100 plus one imported unit at 50 with a fee of 20 give subtotal 250, fee 20, total 270 and 3 units |
| CartContext.FindItem | frontend/src/contexts/CartContext.tsx:100 | the item id of the first line holding the product, `None` exactly when no line does |
| CartContext.ChangeToast | frontend/src/contexts/CartContext.tsx:82-90 | the success toast on an ok answer; otherwise the body's `error` or the fallback, or the network message after an exception |
| CartContext.ReplyToast | frontend/src/contexts/CartContext.tsx:113-120 | the success toast on an ok reply, the fixed failure text otherwise, the network message after an exception |
| CartContext.CartProvider.FetchCart | frontend/src/contexts/CartContext.tsx:40-59 | nothing is sent without a token. Otherwise one GET; an ok reply replaces the list with its items, or `[]` when they are missing, and any other reply keeps it |
| CartContext.CartProvider.AddToCart | frontend/src/contexts/CartContext.tsx:61-94 | without a token nothing is sent and the user is asked to sign in. Otherwise the product and quantity are posted; only an ok answer refreshes the list, and the toast reports the outcome |
| CartContext.CartProvider.RemoveFromCart | frontend/src/contexts/CartContext.tsx:96-124 | nothing happens without a token or a line holding the product. Otherwise that line's id is deleted and the list refreshed on success, with the outcome's toast |
| CartContext.CartProvider.UpdateQuantity | frontend/src/contexts/CartContext.tsx:126-160 | a quantity below 1 behaves as a removal. Otherwise the line's quantity is put and the list refreshed on success with no toast; a failure shows the body's `error` or its fallback |
| CartContext.CartProvider.ClearCart | frontend/src/contexts/CartContext.tsx:162-187 | nothing is sent without a token. Otherwise one DELETE; the list becomes empty exactly when the server confirms, with the outcome's toast |
| CartContext.CartProvider.constructor | frontend/src/contexts/CartContext.tsx:32-33 | the provider starts with an empty cart and nothing loading |
| PaymentClient.FormatPhoneNumber | frontend/src/components/PaymentMethods.tsx:73-82 | the number sent is all digits and starts with the country code 254 |
| PaymentClient.AcceptedNumbersFormatToTwelveDigits | frontend/src/components/PaymentMethods.tsx:68-82 | every number the widget accepts is sent as 254 followed by its nine subscriber digits, twelve digits whichever prefix was typed |
| PaymentClient.ValidatePhoneNumber | frontend/src/components/PaymentMethods.tsx:68-71 | the Kenyan pattern `(+254|254|0)?[17]` and eight more digits on the number with all whitespace removed; an accepted number has 9 to 13 characters once whitespace is removed |
| PaymentClient.CoreFormats | frontend/src/components/PaymentMethods.tsx:81 | a number typed without a prefix gains the country code |
| PaymentClient.PrefixedFormats | frontend/src/components/PaymentMethods.tsx:75-80 | a number typed with the trunk prefix 0 or the country code has it replaced by 254 |
| PaymentClient.SpacesDoNotMatter | frontend/src/components/PaymentMethods.tsx:70 | a space typed between digit groups does not change whether the number is accepted |
| PaymentClient.PollPaymentStatus | frontend/src/components/PaymentMethods.tsx:129-168 | the polling loop sends the queries and fires the callbacks of the recursive `poll` |
| PaymentClient.PollFrom | frontend/src/components/PaymentMethods.tsx:129-168 | the poller as written from attempt k: at least one query is sent, and a run ends without any callback exactly when its last query threw |
| PaymentClient.PollerBounded | frontend/src/components/PaymentMethods.tsx:130-161 | the poller sends between one and thirty queries and fires at most one callback |
| PaymentClient.SuccessOnlyOnCompleted | frontend/src/components/PaymentMethods.tsx:143-147 | a success callback means the last query answered `completed` |
| PaymentClient.CompletedOnThirdAttempt | frontend/src/components/PaymentMethods.tsx:143-157 | a worked example beside `PaymentClient.SuccessOnlyOnCompleted`: `processing`, `processing`, `completed` give success after the third query and no fourth |
| PaymentClient.NeverSettlingTimesOut | frontend/src/components/PaymentMethods.tsx:155-161 | a status that never settles ends with the timeout error after exactly thirty queries |
| PaymentClient.ThrownQueryEndsSilently | frontend/src/components/PaymentMethods.tsx:162-164 | as written, a query that throws ends the polling with no callback at all |
| PaymentClient.PollRetryingFrom | frontend/src/components/PaymentMethods.tsx:129-168 | the poller with a thrown query counted as an unsettled attempt: at least one query is sent from attempt k, and a success callback only follows a `completed` answer to the last query |
| PaymentClient.RetryingPollerCallsBackOnce | frontend/src/components/PaymentMethods.tsx:129-168 | with a thrown query counted as an unsettled attempt, every run fires exactly one callback within thirty queries |
| PaymentClient.PollersAgreeWithoutErrors | frontend/src/components/PaymentMethods.tsx:129-168 | the retrying poller and the poller as written agree whenever no query throws |
| PaymentClient.PaymentWidget.TypePhone | frontend/src/components/PaymentMethods.tsx:84 | the phone field holds what was typed |
| PaymentClient.InitErrorMessage | frontend/src/components/PaymentMethods.tsx:117-122 | the text passed to `onPaymentError`: a thrown error's own message, and for a refused reply its message or `Payment failed`, never empty |
| PaymentClient.PaymentWidget.HandleMobilePayment | frontend/src/components/PaymentMethods.tsx:84-127 | an invalid number sends nothing, with an error toast. Otherwise the formatted number, the provider and the amount are posted. An ok reply starts the poller on its transaction id; anything else reports one error (`message` or `Payment failed`) to the caller and as a toast |
| PaymentClient.HandlePayment | frontend/src/components/PaymentMethods.tsx:180-197 | M-Pesa and Airtel start a mobile payment with that provider, card and bank show "coming soon", and any other choice asks the user to select a method |
| PaymentClient.PaymentWidget.constructor | frontend/src/components/PaymentMethods.tsx:33-35 | the widget starts with an empty phone field, nothing loading, and the idle status |
| Pagination.Range | frontend/src/components/common/ModernPagination.tsx:43-45 | the buttons `a` through `b` in order, and none when `a > b` |
| Pagination.RangeSnoc | frontend/src/components/common/ModernPagination.tsx:59-61 | one more step of the loop adds the next page at the end |
| Pagination.PushRange | frontend/src/components/common/ModernPagination.tsx:59-61 | the loop appends exactly the buttons `a` through `b` |
| Pagination.VisiblePages | frontend/src/components/common/ModernPagination.tsx:38-75 | the strip getVisiblePages builds: with at least one page the first button is page 1, and with two or more pages the last button is the last page |
| Pagination.GetVisiblePages | frontend/src/components/common/ModernPagination.tsx:38-75 | the pushed list is the strip: every page when they fit; otherwise the first page, an ellipsis where there is a gap, the middle run, an ellipsis where there is a gap, and the last page |
| Pagination.PageCountAppend | frontend/src/components/common/ModernPagination.tsx:38-75 | the page-button count of two strips joined is the sum of their counts |
| Pagination.PageCountRange | frontend/src/components/common/ModernPagination.tsx:59-61 | a run of pages has one button per entry |
| Pagination.PageButtonsBounded | frontend/src/components/common/ModernPagination.tsx:41-71 | for a limit of at least 2, at most `maxVisiblePages` page buttons are shown |
| Pagination.RangeWithin | frontend/src/components/common/ModernPagination.tsx:59-61 | a run from `a` to `b` grows strictly and stays within `a..b` |
| Pagination.AppendWithin | frontend/src/components/common/ModernPagination.tsx:38-75 | two increasing strips side by side, the left one below the right one, form one increasing strip |
| Pagination.PiecesWithin | frontend/src/components/common/ModernPagination.tsx:47-71 | the first page, the middle run and the last page joined in that order form one increasing strip within `1..totalPages` |
| Pagination.AscendingStrip | frontend/src/components/common/ModernPagination.tsx:38-75 | the page numbers grow strictly from left to right and lie in `1..totalPages`, so no page shows twice |
| Pagination.CurrentPageVisible | frontend/src/components/common/ModernPagination.tsx:50-61 | the current page has a button whenever at least five are allowed (the default is seven) |
| Pagination.CurrentPageHiddenWithFour | frontend/src/components/common/ModernPagination.tsx:50-61 | a counterexample beside `Pagination.CurrentPageVisible`, which needs at least five visible pages: with only four visible pages, page 5 of 10 drops out of the strip |
| Pagination.NavigationStaysInRange | frontend/src/components/common/ModernPagination.tsx:184-240 | an enabled previous or next button leads to a page in `1..totalPages` |
| AuthContext.Restored | frontend/src/contexts/AuthContext.tsx:43-52 | the session restored at start-up: both stored values when the token is non-empty and a user is stored, otherwise nothing |
| AuthContext.Persisted | frontend/src/contexts/AuthContext.tsx:59-68 | a sign-in always writes `token` and `user`. It also writes the admin keys exactly when it is a login (not a register) by an admin, and otherwise leaves them as they were |
| AuthContext.LoggedOut | frontend/src/contexts/AuthContext.tsx:115-120 | logout removes `token` and `user` and leaves the admin keys in place |
| AuthContext.ReloadAfterSignIn | frontend/src/contexts/AuthContext.tsx:43-68 | a reload after a sign-in with a non-empty token restores the same user and token, and the provider counts as authenticated |
| AuthContext.ReloadAfterLogout | frontend/src/contexts/AuthContext.tsx:43-120 | a reload after an admin's logout restores no session, yet the admin's token and user survive under the admin keys |
| AuthContext.RegisterKeepsAdminKeys | frontend/src/contexts/AuthContext.tsx:106-109 | registering never writes the admin keys, whatever the role |
| AuthContext.AuthProvider.constructor | frontend/src/contexts/AuthContext.tsx:39-41 | the provider starts signed out and loading, over the browser's storage |
| AuthContext.AuthProvider.Restore | frontend/src/contexts/AuthContext.tsx:43-52 | the session is set from storage only when both values are present, storage is not written, and loading ends |
| AuthContext.AuthProvider.SignIn | frontend/src/contexts/AuthContext.tsx:54-113 | a thrown call changes nothing and is rethrown. Otherwise the session becomes the reply's user and token and the storage gets the sign-in writes |
| AuthContext.AuthProvider.Login | frontend/src/contexts/AuthContext.tsx:54-72 | on a reply, the session and storage are set, with the admin copy for an admin; a thrown call changes nothing |
| AuthContext.AuthProvider.LoginWithOtp | frontend/src/contexts/AuthContext.tsx:74-92 | the same writes as login |
| AuthContext.AuthProvider.Register | frontend/src/contexts/AuthContext.tsx:94-113 | the session, `token` and `user` are set; the admin keys never are |
| AuthContext.AuthProvider.Logout | frontend/src/contexts/AuthContext.tsx:115-120 | the session is cleared and storage loses `token` and `user` only |
| AuthContext.AuthProvider.IsAuthenticated | frontend/src/contexts/AuthContext.tsx:122 | true exactly when there is a user and a non-empty token |
| AuthContext.AuthProvider.IsAdmin | frontend/src/contexts/AuthContext.tsx:123 | true exactly when the user's role is `admin` |
| ProductForm.NormalizeTags | frontend/src/components/admin/ProductForm.tsx:100-104 | a tag list is kept and anything else becomes `[]`. A string is split on `,` with blank pieces dropped, so no tag is blank or holds a comma |
| ProductForm.TagsRoundTrip | frontend/src/components/admin/ProductForm.tsx:100-101 | for non-blank tags without a comma, splitting the `tags` column the admin handler stores gives back the same list |
| ProductForm.GenerateSku | frontend/src/components/admin/ProductForm.tsx:126-128 | `SKU-` followed by one to eight digits |
| ProductForm.LoadForm | frontend/src/components/admin/ProductForm.tsx:96-124 | an edited product's fields with normalised tags, or a blank form: empty fields, price and stock 0, status `active`, a fresh SKU |
| ProductForm.AddTag | frontend/src/components/admin/ProductForm.tsx:186-194 | only the tags change. A non-blank trimmed input ends up among them, and is appended (with the input cleared) exactly when it was not yet a tag |
| ProductForm.AddTagKeepsDistinct | frontend/src/components/admin/ProductForm.tsx:186-194 | adding a tag keeps the list duplicate-free, and adding the same tag twice adds it once |
| ProductForm.RemoveTag | frontend/src/components/admin/ProductForm.tsx:196-201 | every copy of the tag is dropped and every other tag kept, in order |
| ProductForm.RemoveAddedTag | frontend/src/components/admin/ProductForm.tsx:186-201 | removing a tag just added gives the tag list back |
| ProductForm.RemoveImage | frontend/src/components/admin/ProductForm.tsx:179-184 | the image at the position is dropped; a position out of range changes nothing |
| ProductForm.RemoveImageShifts | frontend/src/components/admin/ProductForm.tsx:179-184 | the earlier images stay and the later ones move down by one |
| ProductForm.AddImageUrl | frontend/src/components/admin/ProductForm.tsx:203-211 | only the images change. A non-blank trimmed URL ends up among them, and is appended (with the input cleared) exactly when it was not yet listed |
| ProductForm.AddImageUrlKeepsDistinct | frontend/src/components/admin/ProductForm.tsx:203-211 | adding a URL keeps a duplicate-free image list duplicate-free |
| ProductForm.UploadedUrls | frontend/src/components/admin/ProductForm.tsx:158-163 | at most one URL per upload |
| ProductForm.UploadedUrlsCount | frontend/src/components/admin/ProductForm.tsx:158-163 | exactly one URL is collected per successful upload |
| ProductForm.UploadImages | frontend/src/components/admin/ProductForm.tsx:137-177 | with no file list nothing changes. Any upload that throws leaves the images as they were. Otherwise the collected URLs are appended after the existing images, and the count shown is the number of successful uploads |
| ProductForm.ToRequest | frontend/src/components/admin/ProductForm.tsx:228-235 | the body carries the form's fields as the admin request |
| ProductForm.Submit | frontend/src/components/admin/ProductForm.tsx:214-226 | a request is sent exactly when name, description and category are filled and the price is positive: a PUT of the edited product, else a POST |
| ProductForm.SubmittedFormOnServer | frontend/src/components/admin/ProductForm.tsx:214-217 | the client check is weaker than the server's: a sent form passes the server's binding exactly when it also has a SKU, non-negative stock and shipping fee, and one of the three statuses |
| ProductForm.FilledBlankFormAccepted | frontend/src/components/admin/ProductForm.tsx:106-122 | a blank form with its required fields filled is sent and accepted by the server |
| AdminDashboardPage.StatusColor | frontend/src/pages/admin/AdminDashboard.tsx:202-209 | on the lower-cased status, `delivered` is success, `shipped` info, `processing` warning and `cancelled` error, each exactly; anything else is the default |
| AdminDashboardPage.StatusColorIgnoresCase | frontend/src/pages/admin/AdminDashboard.tsx:202-209 | the colour does not depend on letter case |
| AdminDashboardPage.RecentOrders | frontend/src/pages/admin/AdminDashboard.tsx:365 | the first five orders in order, or all of them when there are fewer |
| AdminDashboardPage.SavedList | frontend/src/pages/admin/AdminDashboard.tsx:113-121 | when editing, every entry with the saved id is replaced and the rest kept; otherwise the saved product is appended |
| AdminDashboardPage.SaveEditedIdempotent | frontend/src/pages/admin/AdminDashboard.tsx:114-115 | saving the same edited product twice is the same as saving it once |
| AdminDashboardPage.SavedEditListed | frontend/src/pages/admin/AdminDashboard.tsx:114-115 | after an edit, the saved product is listed exactly when an entry with its id was |
| AdminDashboardPage.WithoutProduct | frontend/src/pages/admin/AdminDashboard.tsx:102 | every entry with the id is removed and every other entry kept, in order |
| AdminDashboardPage.DeleteAfterCreate | frontend/src/pages/admin/AdminDashboard.tsx:91-121 | deleting a product just created gives the list without it |
| AdminDashboardPage.WithOrderStatus | frontend/src/pages/admin/AdminDashboard.tsx:135-137 | only the order with the id gets the new status |
| AdminDashboardPage.OrderStatusLastWins | frontend/src/pages/admin/AdminDashboard.tsx:135-137 | of two status changes to one order, the second wins |
| AdminDashboardPage.DashboardPage.constructor | frontend/src/pages/admin/AdminDashboard.tsx:62-78 | zero statistics, empty lists, the form closed and the page loading |
| AdminDashboardPage.DashboardPage.FetchDashboardData | frontend/src/pages/admin/AdminDashboard.tsx:153-199 | stats, orders, products and users are fetched in that order, and each ok reply replaces its field. An exception stops the later requests and shows `Failed to load dashboard data`; loading ends either way |
| AdminDashboardPage.DashboardPage.AddProduct | frontend/src/pages/admin/AdminDashboard.tsx:81-84 | the form opens for a new product and nothing else changes |
| AdminDashboardPage.DashboardPage.EditProduct | frontend/src/pages/admin/AdminDashboard.tsx:86-89 | the form opens on the given product and nothing else changes |
| AdminDashboardPage.DashboardPage.SaveProduct | frontend/src/pages/admin/AdminDashboard.tsx:113-121 | the list takes the saved product, replacing it when editing and appending it otherwise, and the form closes |
| AdminDashboardPage.DashboardPage.DeleteProduct | frontend/src/pages/admin/AdminDashboard.tsx:91-111 | without confirmation nothing is sent. The list drops the product only on an ok reply; a refused reply and an exception each have their own error toast |
| AdminDashboardPage.DashboardPage.UpdateOrderStatus | frontend/src/pages/admin/AdminDashboard.tsx:123-145 | on an ok reply only the matching order's status changes, otherwise nothing. A refused reply and an exception each have their own error toast |
| ProductDetail.AverageRating | frontend/src/pages/ProductDetail.tsx:229-231 | 0 without reviews; otherwise the average times the number of reviews is the sum of the ratings |
| ProductDetail.RatingSumBounds | frontend/src/pages/ProductDetail.tsx:229-231 | with ratings of 1 to 5 stars, the sum lies between the count and five times the count |
| ProductDetail.AverageRatingBounds | frontend/src/pages/ProductDetail.tsx:229-231 | with ratings of 1 to 5 stars, as the server accepts them, the shown average lies between 1 and 5 |
| ProductDetail.MeanBounds | frontend/src/pages/ProductDetail.tsx:229-231 | a sum between n and 5n, divided by n > 0, lies between 1 and 5 |
| ProductDetail.ProductPage.constructor | frontend/src/pages/ProductDetail.tsx:67-78 | the page opens loading, with quantity 1, an empty review at 5 stars and no reply box open |
| ProductDetail.ProductPage.FetchProduct | frontend/src/pages/ProductDetail.tsx:87-98 | the product on success. On failure an error toast, and the page goes back to the list. Loading ends either way and nothing else changes; the quantity is not clamped to the stock |
| ProductDetail.ProductPage.FetchReviews | frontend/src/pages/ProductDetail.tsx:100-107 | the body's `reviews`, or `[]` when it has none; an exception keeps the old list |
| ProductDetail.ProductPage.QuantityChange | frontend/src/pages/ProductDetail.tsx:114-119 | the new quantity applies only when it is between 1 and the stock (0 without a product), so a valid quantity stays valid |
| ProductDetail.ProductPage.AddProductToCart | frontend/src/pages/ProductDetail.tsx:109-112 | nothing without a product; otherwise the product with the chosen quantity |
| ProductDetail.ProductPage.SubmitReview | frontend/src/pages/ProductDetail.tsx:121-148 | without a user, or with blank text, an error toast and nothing sent. Otherwise the rating and text are posted. On success the new review is put first and the form resets to `""` and 5 stars; a failure keeps everything |
| ProductDetail.ProductPage.ReviewAction | frontend/src/pages/ProductDetail.tsx:150-162 | without a user an error toast and nothing sent. Otherwise the action is posted, and success refreshes the reviews while a failure shows `Failed to <action> review` |
| ProductDetail.ProductPage.ReplyClick | frontend/src/pages/ProductDetail.tsx:164-171 | a signed-in user gets an empty reply box on the review; anyone else gets an error toast and no change |
| ProductDetail.ProductPage.SubmitReply | frontend/src/pages/ProductDetail.tsx:173-196 | without a user, or with blank text, an error toast and nothing sent. Otherwise the reply is posted; success closes the box, clears it and refreshes the reviews, and a failure keeps everything |
| ProductDetail.ProductPage.CancelReply | frontend/src/pages/ProductDetail.tsx:198-201 | the reply box closes and its text is cleared |
| ProductsPage.FetchDelay | frontend/src/pages/Products.tsx:54-60 | a typed search term waits 500 ms before fetching; otherwise there is no wait |
| ProductsPage.ToggleWishlist | frontend/src/pages/Products.tsx:94-100 | the id is in the new list exactly when it was not in the old one, and every other id keeps its membership. An absent id is appended |
| ProductsPage.ToggleKeepsDistinct | frontend/src/pages/Products.tsx:94-100 | the wishlist stays duplicate-free |
| ProductsPage.DoubleToggle | frontend/src/pages/Products.tsx:94-100 | toggling twice restores every id's membership, and from an unlisted id the list itself |
| ProductsPage.ShownPages | frontend/src/pages/Products.tsx:86 | the reply's `totalPages`, or 1 when it is missing or 0 |
| ProductsPage.CataloguePage.constructor | frontend/src/pages/Products.tsx:38-47 | the page opens loading, on page 1 of 1, sorted by name, with nothing filtered |
| ProductsPage.CataloguePage.SetSearch | frontend/src/pages/Products.tsx:257-260 | the term changes and the list returns to page 1 |
| ProductsPage.CataloguePage.SetCategory | frontend/src/pages/Products.tsx:277-280 | the filter changes and the list returns to page 1 |
| ProductsPage.CataloguePage.SetSort | frontend/src/pages/Products.tsx:297-300 | the order changes and the list returns to page 1 |
| ProductsPage.CataloguePage.PageChange | frontend/src/pages/Products.tsx:344 | the pagination control sets the current page |
| ProductsPage.CataloguePage.CurrentQuery | frontend/src/pages/Products.tsx:76-83 | the current page, 12 per page, and the search term, sort and category |
| ProductsPage.CataloguePage.FetchProducts | frontend/src/pages/Products.tsx:73-92 | the current query is sent. A reply replaces the list (or empties it) and the page count (1 when missing or 0); an exception keeps both. Loading ends either way |
| ProductsPage.CataloguePage.FetchCategories | frontend/src/pages/Products.tsx:62-71 | the reply's category names, or `[]` when it has none; a failed request gives the eight fallback categories |
| ProductsPage.CataloguePage.Toggle | frontend/src/pages/Products.tsx:94-100 | the heart button toggles the product in the wishlist |
| ProductsPage.CataloguePage.AddProductToCart | frontend/src/pages/Products.tsx:102-105 | the grid always adds one unit, with a toast naming the product |
| Checkout.Total | frontend/src/pages/Checkout.tsx:117-119 | the subtotal plus the delivery fee; with non-negative fees and quantities it is never below the subtotal |
| Checkout.SubmitStep | frontend/src/pages/Checkout.tsx:65-72 | onSubmit's step change as written: from shipping or payment a submit always ends at the payment step |
| Checkout.BackStep | frontend/src/pages/Checkout.tsx:61-63 | handleBack, which the disabled button keeps from running at step 0: from shipping or payment it ends at shipping |
| Checkout.LocalCartTotal | frontend/src/pages/Checkout.tsx:117-119 | a cart without imported, fee-bearing items costs its subtotal |
| Checkout.StepNeverPastPayment | frontend/src/pages/Checkout.tsx:57-72 | as written, no run of submits and backs takes the form past the payment step |
| Checkout.OrderStepUnreachable | frontend/src/pages/Checkout.tsx:65-72 | hence the review step, the only one at which submitting places the order, is never shown |
| Checkout.TwoSubmitsStayAtPayment | frontend/src/pages/Checkout.tsx:65-72 | a worked example of `Checkout.StepNeverPastPayment`: two submits from the start leave the form at the payment step |
| Checkout.StepAfterIntended | frontend/src/pages/Checkout.tsx:42-72 | the step reached with every step but the last moving on; it stays within the three steps |
| Checkout.IntendedReachesReview | frontend/src/pages/Checkout.tsx:42-72 | with every step but the last moving on, two submits reach the review step |
| Checkout.CheckoutPage.constructor | frontend/src/pages/Checkout.tsx:45-47 | the form opens at the shipping step, not loading, with no address stored |
| Checkout.ShippingFilled | frontend/src/pages/Checkout.tsx:142-199 | the fields registered with `required`: all but the postal code must be non-empty before `handleSubmit` calls `onSubmit` |
| Checkout.CheckoutPage.OnSubmit | frontend/src/pages/Checkout.tsx:65-72 | form values with an empty required field (the `required` rules at lines 142-199 cover all but the postal code, and the form submits through `handleSubmit` at line 289) change nothing and send nothing. Otherwise step 0 stores the address and moves on, the last step creates the order, and step 1 does nothing. The step stays at shipping or payment, and a stored address always passed the field rules |
| Checkout.CheckoutPage.CreateOrder | frontend/src/pages/Checkout.tsx:74-107 | nothing without a stored address. Otherwise the address, the cart lines, the subtotal, the delivery fee and their sum are posted, and the posted address has every required field filled. A created order opens its page with a success toast; a refusal and an exception each have their error toast |
| Checkout.CheckoutPage.GoBack | frontend/src/pages/Checkout.tsx:61-63 | enabled from step 1 on (`disabled={activeStep === 0}`), it moves back one step |
| Checkout.CheckoutPage.PaymentSucceeded | frontend/src/pages/Checkout.tsx:109-112 | the payment step's success leaves for the order list with a success toast |
| Checkout.CheckoutPage.PaymentFailed | frontend/src/pages/Checkout.tsx:114-116 | the failure is shown as `Payment failed: <error>` and the form stays |
| Faq.Filtered | frontend/src/pages/FAQ.tsx:104-109 | the shown entries keep list order, each matches both the search term and the category, and every listed entry matching both is shown |
| Faq.MatchesSearch | frontend/src/pages/FAQ.tsx:105-106 | the lower-cased question or answer contains the lower-cased search term |
| Faq.MatchesCategory | frontend/src/pages/FAQ.tsx:107 | the `all` chip, or the entry's own category |
| Faq.ShownIff | frontend/src/pages/FAQ.tsx:104-109 | an entry is shown exactly when it is listed and matches both filters |
| Faq.SubsequenceMembers | frontend/src/pages/FAQ.tsx:104 | every entry of a filtered list is an entry of the whole list |
| Faq.ContainsEmpty | frontend/src/pages/FAQ.tsx:105-106 | every text contains the empty search term |
| Faq.NoFilterKeepsAll | frontend/src/pages/FAQ.tsx:104-109 | as the page opens, with no term and the `all` chip, every entry is listed |
| Faq.CategoryChipNarrows | frontend/src/pages/FAQ.tsx:107 | a category chip keeps only entries of that category |
| Faq.Message | frontend/src/pages/FAQ.tsx:182-188 | `No FAQs found matching your search.` is shown exactly when no entry matches both filters |
| LoginPage.ValidPhoneIffPattern | frontend/src/pages/Login.tsx:247-250 | the position-wise phone check accepts exactly the strings of the pattern `^\+?[1-9]\d{1,14}$`: optional plus, a non-zero digit, one to fourteen digits |
| LoginPage.PlaceholderPhoneValid | frontend/src/pages/Login.tsx:242-250 | a worked example of the phone rule: the number shown as the phone box's placeholder passes the phone rule |
| LoginPage.LeadingZeroRefused | frontend/src/pages/Login.tsx:247-250 | a number starting with `0`, with or without the plus sign, is refused |
| LoginPage.ServerCodesPass | frontend/src/pages/Login.tsx:283-286 | every six-digit code the server generates passes the form's `^\d{6}$` rule |
| LoginPage.PhoneError | frontend/src/pages/Login.tsx:246-250 | the phone field has no message exactly when the phone rule holds; an empty field reads `Phone number is required` |
| LoginPage.CodeError | frontend/src/pages/Login.tsx:282-286 | the code field has no message exactly when the code is six digits; an empty field reads `OTP code is required` |
| LoginPage.FilledLoginPassesServerCheck | frontend/src/pages/Login.tsx:180-199 | a password-tab request whose two required fields are filled is never answered `400` by the login endpoint |
| LoginPage.ValidOtpFormComplete | frontend/src/pages/Login.tsx:246-286 | an OTP-tab request that passes both field rules carries every field the verifying endpoint requires |
| LoginPage.SignInPage.constructor | frontend/src/pages/Login.tsx:45-50 | the page opens on the password tab, with no error, no code sent and nothing loading |
| LoginPage.SignInPage.SetTab | frontend/src/pages/Login.tsx:148 | the chosen tab becomes the current one |
| LoginPage.SignInPage.TypePhone | frontend/src/pages/Login.tsx:65 | the watched phone value follows the field |
| LoginPage.SignInPage.SubmitLogin | frontend/src/pages/Login.tsx:67-78 | a form with an empty field sends nothing; a filled one sends the login request, navigates home exactly when it succeeds, and otherwise shows the server's error or `Login failed` |
| LoginPage.SignInPage.SendOtp | frontend/src/pages/Login.tsx:80-96 | an empty phone sends nothing and shows `Please enter your phone number`; otherwise a login-purpose code request is sent, success shows the code field, and failure shows the server's error or `Failed to send OTP` |
| LoginPage.SignInPage.Resend | frontend/src/pages/Login.tsx:309-318 | the code field is shown afterwards exactly when the phone is filled and the new request succeeds |
| LoginPage.SignInPage.SubmitOtp | frontend/src/pages/Login.tsx:98-109 | a request failing either field rule sends nothing; a passing one sends a complete login-purpose verify request, navigates home exactly on success, and otherwise shows the server's error or `OTP verification failed` |
| OtpEntry.Tick | frontend/src/pages/OTPVerification.tsx:37 | one tick takes one second off a running countdown and leaves it at zero once it has stopped |
| OtpEntry.AfterTicksValue | frontend/src/pages/OTPVerification.tsx:36-38 | from a non-negative start, `n` ticks take `n` seconds off, stopping at zero |
| OtpEntry.ResendOpensAfterSixty | frontend/src/pages/OTPVerification.tsx:22-38 | after a fresh code the countdown reaches zero exactly once sixty ticks have passed |
| OtpEntry.JoinedLength | frontend/src/pages/OTPVerification.tsx:66-68 | with slots of at most one character, the joined code is six long exactly when every slot is filled |
| OtpEntry.StoredLoginRestored | frontend/src/pages/OTPVerification.tsx:93-95 | the token and user the sign-in path stores are restored by the session provider on the next load |
| OtpEntry.OtpEntryPage.constructor | frontend/src/pages/OTPVerification.tsx:18-28 | the page opens with six blank slots, a sixty-second countdown, no error, and the email, phone and sign-in flag it was opened with |
| OtpEntry.OtpEntryPage.Mount | frontend/src/pages/OTPVerification.tsx:30-41 | with neither an email nor a phone the page goes to `/login`; otherwise the timer starts |
| OtpEntry.OtpEntryPage.TimerTick | frontend/src/pages/OTPVerification.tsx:36-38 | one interval callback is one tick, and the countdown is never negative |
| OtpEntry.OtpEntryPage.OtpChange | frontend/src/pages/OTPVerification.tsx:43-55 | input longer than one character changes nothing; otherwise only the slot typed in changes |
| OtpEntry.OtpEntryPage.Verify | frontend/src/pages/OTPVerification.tsx:64-110 | a code is posted exactly when all six slots are filled. An ok answer on the sign-in path stores the token and user and goes home; on the other path it goes to `/login`. A refused answer shows its message or `Invalid OTP`, and a throw shows the network error |
| OtpEntry.OtpEntryPage.ResendClick | frontend/src/pages/OTPVerification.tsx:112-140 | a request is sent exactly when the countdown has stopped and no resend is under way; an ok answer restarts the countdown and clears the slots, and a refused one keeps them and shows its message or `Failed to resend OTP` |
| ForgotPassword.PasswordError | frontend/src/pages/ForgotPassword.tsx:91-99 | the new password is refused exactly when it differs from its confirmation or is under six characters, the mismatch being reported first |
| ForgotPassword.StepCountsSuccesses | frontend/src/pages/ForgotPassword.tsx:46-117 | the step reached is the number of ok answers, capped at the done step |
| ForgotPassword.StepNeverDecreases | frontend/src/pages/ForgotPassword.tsx:46-117 | a longer run of submits never stands at an earlier step |
| ForgotPassword.ResetBody | frontend/src/pages/ForgotPassword.tsx:105-111 | the reset step posts an object whose keys are only `email`, `otp` and `newPassword`, and the typed new password is in it under `newPassword` |
| ForgotPassword.ResetBodyRefused | frontend/src/pages/ForgotPassword.tsx:105-111 | bound through the reset request's `json` tags (`backend/handlers/auth.go:52-56`), no key of the page's body fills a field, even up to letter case, so the server reads the zero request and refuses it as invalid, whatever was typed |
| ForgotPassword.ResetFlow.constructor | frontend/src/pages/ForgotPassword.tsx:20-26 | the flow opens at the email step with empty fields and no error |
| ForgotPassword.ResetFlow.Type | frontend/src/pages/ForgotPassword.tsx:20-24 | the fields of the three forms follow their inputs |
| ForgotPassword.ResetFlow.Failure | frontend/src/pages/ForgotPassword.tsx:49-53 | an ok answer clears the error; a refused one shows its message or the step's fallback; a throw shows the network error |
| ForgotPassword.ResetFlow.Submit | frontend/src/pages/ForgotPassword.tsx:30-126 | each step's form sends its one request (or nothing when a required field is empty, at the done step, or when the new password is refused). Only an ok answer moves to the next step, with that step's toast, and the step stays within the four |
| Ui.ErrorText | frontend/src/pages/Login.tsx:74 | the server's error text when there is one, and the handler's fallback otherwise |

## Left out

- Database failures, panics recovered by gin, and GORM's own errors: every write is assumed to succeed. The `500` replies that depend only on the database failing are not modelled. The paging panic on a zero limit is modelled.
- SQL details: `ILIKE` is modelled as ASCII case-insensitive substring search, and soft deletes as removal of the row. Joins and preloads become lookups in the tables.
- ReferenceIndex (`PaymentHandler.ReferenceIndex`): `reference LIKE '%id%'` is modelled as plain substring search. A `_` or `%` inside the CheckoutRequestID is a wildcard in SQL, so such an id can match references that the model does not match.
- String semantics: `Text.ToLower`, `Text.Trim`, `Text.IsBlank` and `Text.StripSpaces` handle only ASCII letters and the six ASCII whitespace characters. JavaScript's `toLowerCase`, `trim` and `\s`, and PostgreSQL's `ILIKE`, also fold non-ASCII letters and skip Unicode spaces such as U+00A0. The model treats those as ordinary characters.
- PasswordError (`ForgotPassword.PasswordError`): the six-character minimum counts Dafny `char`s, which are Unicode scalar values. JavaScript's `length` counts UTF-16 code units, so a password with characters outside the Basic Multilingual Plane is shorter here than in the browser.
- SignIn (`AuthContext.AuthProvider.SignIn`): `authApi` calls go through the axios instance of `frontend/src/services/api.ts`, whose response interceptor (lines 23-33) answers every 401 by removing `token` and `user` from localStorage and loading /login. The interceptor is not modelled, so the contract's "a thrown call changes nothing" does not cover a 401: in the source storage is cleared and the page reloads.
- Login (`AuthContext.AuthProvider.Login`): a refused identifier or password is a 401 (`backend/handlers/auth.go:120`), on which the same interceptor clears `token` and `user` and reloads /login. The model keeps storage and state unchanged.
- LoginWithOtp (`AuthContext.AuthProvider.LoginWithOtp`): an unknown phone is a 401 (`backend/handlers/auth.go:206`), with the same clear-and-reload. The model keeps storage and state unchanged.
- SubmitLogin (`LoginPage.SignInPage.SubmitLogin`): every refused password is a 401, so in the source the interceptor clears the session and reloads /login, and the error message the contract shows does not stay on screen.
- SubmitOtp (`LoginPage.SignInPage.SubmitOtp`): an unknown phone is a 401, so the page reloads at /login with the session cleared, instead of keeping the error.
- SubmitReview (`ProductDetail.ProductPage.SubmitReview`): with an expired or missing token the post gets a 401, which the interceptor turns into clear-and-reload of /login. The failure toast the contract gives is then replaced by the reload.
- ReviewAction (`ProductDetail.ProductPage.ReviewAction`): the same 401 clear-and-reload on the like or dislike post.
- SubmitReply (`ProductDetail.ProductPage.SubmitReply`): the same 401 clear-and-reload on the reply post.
- CreateProduct (`AdminProducts.CreateProduct`): deletes are soft (`DeletedAt`, `backend/models/models.go:47`), and the `unique` SKU index (line 36) still holds a deleted product's SKU. The SKU check at `backend/handlers/admin_product.go:77-78` skips deleted rows, so a SKU held only by a deleted product passes it, and `Create` at line 106 then fails on the index with 500. The model removes deleted rows and creates the product.
- UpdateProduct (`AdminProducts.UpdateProduct`): likewise, a new SKU held only by a soft-deleted product passes the check at `backend/handlers/admin_product.go:157`, and `Save` at line 182 fails on the unique index with 500. The model saves.
- CreateProduct (`Products.CreateProduct`): a SKU held only by a soft-deleted product makes `Create` at `backend/handlers/products.go:85` fail on the unique index with 500. The model creates the product.
- UpdateProduct (`Products.UpdateProduct`): a new SKU held only by a soft-deleted product makes `Save` at `backend/handlers/products.go:240` fail on the unique index with 500. The model saves.
- GetOrders (`AdminDashboard.GetOrders`): the summaries are appended to a nil slice (`backend/handlers/admin_dashboard.go:91`, sent at line 137), so with no orders the reply body is JSON `null`, not `[]`. The model returns the empty sequence.
- GetUsers (`AdminDashboard.GetUsers`): the same nil slice (`backend/handlers/admin_dashboard.go:142`, sent at line 181) makes the reply `null` when there are no customers. The model returns the empty sequence.
- 64-bit integers: only the listing handlers' `page`, `limit`, offset and page count are modelled at Go's width. Other integer arithmetic is unbounded: stock changes, quantity sums, like counts and the shared id counter. Overflow there is not modelled.
- GetPaymentStatus (`PaymentHandler.GetPaymentStatus`): two `Payment` records share one table. `handlers.Payment` (`backend/handlers/payment.go:33-45`) and `models.Payment` both map to GORM's table `payments`, and only `models.Payment` is migrated (`backend/main.go:28-40`). The model keeps them as two tables, `Store.Database.mobilePayments` and `Store.Database.payments`. It captures neither the shared storage nor the columns (`user_id`, `provider`, `reference`) that the migration does not create. In the source `PaymentHandler.GetPaymentStatus` can also find the service's rows by transaction id; the model's lookup reads `mobilePayments` only.
- Request decoding: a body that fails binding is one bad-request reply, and the validator's own message text is not modelled. Path ids are taken as already-parsed numbers. The M-Pesa and Airtel callbacks' JSON is a datatype of the fields the handlers read.
- The `validate` tags of `backend/models/models.go` on stored rows (line quantity at least 1, price and stock at least 0, rating 1 to 5) are not carried as table invariants, because GORM does not check them on writes. Only the request-binding tags the handlers use are modelled.
- Hashing, randomness and the clock: bcrypt hashing and comparison, `crypto/rand` bytes, JWT signing and `time.Now` are parameters. Their results are inputs to the model.
- The M-Pesa HTTP exchange (`getMPesaAccessToken`, `initiateSTKPush`, the password and timestamp encoding) and the Airtel placeholder are network I/O. Each provider step is an outcome parameter.
- E-mails, SMS and PDF rendering are foreign services. The goroutine e-mails are left out, the SMS text is not modelled, and for a receipt only the rendered-or-failed outcome is a parameter.
- `AuthHandler.GetProfile` echoes the token's claims set by the middleware, which is not part of this model. `AuthService.VerifyUser` has no caller in the core.
- `ProductHandler.GetCategories` reads a `categories` table that no core code writes.
- `PaymentHandler.AirtelCallback` only acknowledges its body, and `PaymentHandler.initiateAirtelPayment` only re-saves the record as pending. Both reduce to the pending Airtel record already modelled.
- The server ignores the `sort` query parameter the catalogue page sends, so the model carries it without effect.
- Client and server disagree on several message shapes. Each side is modelled as written, and the mismatch is left as it stands:
  - the payment widget reads `transactionId`, but the server sends `transaction_id`;
  - the widget sends `phoneNumber`, but the server binds `phone_number`;
  - the checkout body is not the server's order request shape;
  - the password-reset endpoints `forgot-password` and `verify-reset-otp` are not registered routes, nor are the code page's `verify-login-otp`, `resend-otp` and `resend-login-otp`;
  - the code page posts `otp` where the server reads `code`;
  - the reset body's keys are not the ones the server binds (`ForgotPassword.ResetBodyRefused`);
  - the admin dashboard stores the `null` that `AdminDashboard.GetOrders` and `AdminDashboard.GetUsers` send for an empty result, and then calls `orders.slice(0, 5)` and `users.map` on it unguarded, so the page fails to render for a shop with no orders or no customers. The page model `AdminDashboardPage.DashboardPage.FetchDashboardData` receives lists;
  - the product page posts `/reviews/:id/dislike`, but only `like` and `reply` are routed;
  - the cart provider sums `item.price` times quantity, but `models.CartItem` has no `price` field, so the shop's cart total and checkout subtotal come out as `NaN`. `CartContext.CartTotal` models the sum with the line price as a parameter;
  - the product form's edit mode spreads the loaded product into its state, so `images` holds `ProductImage` objects (`id`, `url`, ...). The form and the server's `Images []string` request field (`backend/handlers/admin_product.go:27`) treat them as URL strings. The model's form holds URL strings.
- The admin dashboard's order listing preloads the items' products but not their images, so `AdminDashboard.ItemImage` is always `""` in practice. The model keeps the code's fallback rule.
- The dashboard's status update writes only the status, with no delivery time. This is modelled as written.
- Timers: `setInterval` and `setTimeout` become ticks and attempt counters, and the search debounce is the delay the page would choose. Races between overlapping requests and refetches are concurrency and are left out.
- JSON parsing of replies is the identity on the fields read. A reply body that does not parse is treated as a throw.
- The help page's twelve questions are a parameter, not constant data.
- Browser behaviour: the `required` and `type="email"` checks of plain inputs are modelled only as non-empty. The Enter key, focus movement and the `maxLength` of the code slots are left out, and a slot may hold any one character.
- Toasts are modelled on the cart provider, the payment widget and the pages. The product form's save and upload toasts and its `onSave`/`onClose` callbacks are not, nor the poller's toasts, which accompany its callbacks.
- Money is `real`: float64 rounding and the `%.2f`/`toLocaleString` formatting are left out.
- PaymentService.ProcessPaymentCallback: a failure callback puts the stock back by looping over the order's items. The loop is modelled as the table-wide update `Store.ApplyItems`, not as per-row saves.
- CartContext.CartProvider.AddToCart: the body of a refused add is taken to parse. Its `error` text is the answer's message.

## Findings

In the first three rows the page, the handler and the poller are modelled as written. The corrected definition sits beside each one, with the intended property proved about it:

- `Checkout.StepAfterIntended` for the checkout steps;
- `Orders.DemandCovered` for the stock check;
- `PaymentClient.PollRetryingFrom` for the poller. The attempt budget at `frontend/src/components/PaymentMethods.tsx:130` and lines 155-161 ends every unsettled run in a timeout callback. Only the `catch` at line 162 ends a run without any callback, leaving the checkout page waiting. The as-written member follows the code, and the corrected one treats a thrown query like a pending one.

In the last row `CartHandlers.UpdateCartItemAsWritten` is the handler with the body bound as the tag is written (`CartHandlers.QuantityBindsAsWritten`): it answers quantity 0 with 400. `CartHandlers.UpdateCartItem` takes the tag as evidently intended, so that 0 deletes the line, as the handler's own zero branch shows.

| source | as written | input that shows it | evidently intended | confidence | as-written member | corrected member |
|---|---|---|---|---|---|---|
| frontend/src/pages/Checkout.tsx:65-72 | `onSubmit` advances only from step 0 and places the order only at step 2, so at step 1 a submit does nothing | start, submit the address, submit again: the form stays at the payment step, and the order is never placed | every step but the last moves on, as the "Next" button says | not executed | Checkout.OrderStepUnreachable | Checkout.IntendedReachesReview |
| backend/handlers/orders.go:73-128 | each line is checked against the stock as it was before the order, and then every line is decremented | one product with stock 6 and two lines of 5 each: both pass, and the stock ends at -4 | the total demand per product is checked against its stock | not executed | Orders.DuplicateLinesOversell | Orders.CoveredDemandKeepsStock |
| frontend/src/components/PaymentMethods.tsx:162-164 | a status query that throws is logged, and the poller neither reschedules nor calls back | a first query that throws: polling ends with no success, failure or timeout callback | a transient error counts as an unsettled attempt, so every run ends in exactly one callback | not executed | PaymentClient.ThrownQueryEndsSilently | PaymentClient.RetryingPollerCallsBackOnce |
| backend/handlers/cart.go:142 | `binding:"required,min=0"` on an int rejects 0, its zero value, so the delete-on-zero branch at lines 162-170 is never reached | an update with quantity 0: 400 instead of removing the line | quantity 0 removes the line | not executed | CartHandlers.UpdateCartItemAsWritten | CartHandlers.UpdateCartItem |
