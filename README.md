# Shop cache bookkeeping and cart pricing, modelled in Dafny

This project models the core of a MERN web shop.

- **Backend.** The order, product and user controllers and the data seeder. They keep three things in step: a record store (one collection per model), a Redis cache, and the flat-array codec (`serialize` / `deserialize`) that moves records between the two. The cache holds:
  - hashes `order:<id>`, `product:<id>` and `user:<id>`;
  - the string value `orders`;
  - the set `emails`;
  - the sorted index `productsSortedByRating`;
  - the lock keys `locks:product:<id>`.
- **Frontend.** The cart slice's `addToCart` reducer, the cart utility `updateCart`, the `Paginate` link list and the five-star `Rating` classification.

## How it is structured

Each module is one file:

| file | module | source it models |
|---|---|---|
| `js_objects.dfy` | `JsObjects` | JavaScript objects as insertion-ordered `(key, value)` sequences; the assignment `obj[k] = v` (`Put`); JSON values |
| `codec.dfy` | `Codec` | `backend/utils/redisHelper.js` |
| `redis.dfy` | `Redis` | the cache as a `class Cache` |
| `models.dfy` | `Models` | the records, their `toObject()` views, the record store as a `class Db`, and the reply datatype |
| `orders.dfy`, `products.dfy`, `users.dfy` | `Orders`, `Products`, `Users` | the three controllers |
| `seeder.dfy` | `Seeder` | `backend/seeder.js` |
| `money.dfy`, `cart_slice.dfy`, `cart_utils.dfy` | `Money`, `CartSlice`, `CartUtils` | cart pricing, in integer cents |
| `paginate.dfy`, `rating.dfy` | `Paginate`, `Rating` | the two UI helpers |
| `strings.dfy`, `wrappers.dfy` | `Strings`, `Wrappers` | `parseInt`, `trim`, `${n}`, `Option` / `Result` |

How the code becomes Dafny:

- **Controllers.** Each controller that changes state is a `method` over a `Db` and a `Cache`. Its `ensures` ties the new store, the new cache and the reply to a function of the old state, for example `Orders.Pay`, `Users.Register` or `Products.AddReview`. Lemmas about those functions state what the source promises.
- **Loops.** The source's loops stay loops, in their own methods with invariants: `serialize`'s push loop, `deserialize`'s index-stepping loop, the per-field `hSet` loops, the lock-acquire loop, the stock-decrement loop, the lock-release loop, the seeder's create loop and its key-delete loop.
- **Outcomes.** An HTTP outcome is a `Reply`: `Ok`, `Created`, `BadRequest`, `Unauthorized`, `NotFound` or `ServerError`, each with its message or body.
- **Opaque helpers.** `JSON.stringify`, `JSON.parse`, `Number` on a string, `serializeOrder` and `matchPassword` are fields of a `Platform` value that callers pass in. Where a property needs it, a lemma requires that `parse` undoes `stringify` on the values involved.
- **Values the environment supplies.** Fresh ids, the clock (`Date.now()`) and the `PAGINATION_LIMIT` setting are parameters.
- **Money.** Amounts are whole cents. A JavaScript number of dollars is an exact `real`. `Math.round(x * 100) / 100` is `Money.AddDecimals`, which rounds halves up, as `Math.round` does.

### What the code does on the paths that fail

- **Settlement is not all-or-nothing.** `updateOrderToPaid` saves each product's decrement as it goes, so a later out-of-stock item leaves the earlier decrements in place. `Orders.SettleIsNotAtomic` shows it: with product a at 5 and b at 0, paying an order for a×2 and b×1 fails on b and leaves a at 3.
- **Lock order and duplicate products.** The locks are acquired in line-item order, one per line item, not once per distinct product. An order that names the same product twice is refused at its second acquire (`Orders.AllLocksAcquired`).
- **Product-not-found is a 500.** In `getProductById` the "not found" error is thrown inside the function's own `try`, so the reply is a 500 (`Products.ProductById`).
- **Cache hits read back as `{}`.** The four read handlers pass the object `hGetAll` returns to `deserialize`, which expects a flat array (see Findings). The controllers are modelled as written: each read function takes a `Redis.Reading`. The handlers use `AsWritten`, and lemmas named `...Corrected` state what `Corrected`, the evidently intended reading, would give.

## Model

| member | source | states |
|---|---|---|
| Codec.Flat | backend/utils/redisHelper.js:1-6 | `serialize(obj)` has exactly twice as many elements as `obj` has fields; element 2k is the k-th key and element 2k+1 the JSON text of its value, in field order |
| Codec.Serialize | backend/utils/redisHelper.js:2-5 | the `reduce` that pushes key and text onto the accumulator builds exactly `Flat(obj)` |
| Codec.Deserialize | backend/utils/redisHelper.js:8-14 | the loop stepping `i` by 2, taking `array[i]` as a key and parsing `array[i+1]` as its value, returns `Decode(array)`: the object, or the index where a value is missing or not JSON |
| Codec.RoundTrip | backend/utils/redisHelper.js:1-14 | `deserialize(serialize(obj))` is `obj`: same keys, same order, same values, when `JSON.parse` undoes `JSON.stringify` on its values |
| Codec.EmptyObject | backend/utils/redisHelper.js:1-14 | `{}` serializes to `[]` and `[]` deserializes to `{}` |
| Codec.OddLengthFails | backend/utils/redisHelper.js:10-11 | every odd-length array fails: the last key has no value to parse |
| Codec.DecodedKeys | backend/utils/redisHelper.js:10-11 | the decoded object's keys are exactly the elements at even indexes, each once |
| Codec.LastPairWins | backend/utils/redisHelper.js:11 | when a key repeats, the value is the parse of the text after its last occurrence |
| JsObjects.Put | backend/utils/redisHelper.js:11 | `obj[k] = v`: a new key is appended at the end; assigning an existing key keeps the number of fields and the key |
| JsObjects.PutLookup | backend/utils/redisHelper.js:11 | after `obj[k] = v`, `k` reads `v` and every other key reads as before |
| JsObjects.PutKeys | backend/utils/redisHelper.js:11 | after `obj[k] = v` the keys are the old keys plus `k`, and unique keys stay unique |
| JsObjects.Remove | backend/controllers/userController.js:136 | the rest of an object without `k`: `k` is absent, every other key reads as before, unique keys stay unique |
| JsObjects.OrElse | backend/controllers/userController.js:127-128 | `a \|\| b` on strings: `a` when it is a non-empty string, otherwise `b` |
| Redis.Cache.HSet | backend/controllers/orderController.js:100 | `HSET key ...flat` merges the pairs into the hash under `key`; nothing else in the cache changes |
| Redis.Cache.HSetField | backend/controllers/orderController.js:72 | `HSET key field value` assigns one field of the hash under `key` |
| Redis.Cache.Del | backend/controllers/userController.js:175 | `DEL key` removes the key, whatever kind of value it holds; nothing else changes |
| Redis.Cache.SAddEmail | backend/controllers/userController.js:60 | `SADD emails e` adds `e` to the set |
| Redis.Cache.Set | backend/controllers/orderController.js:217 | `SET key value` replaces the string value |
| Redis.Cache.ZAddRanking | backend/seeder.js:41-44 | `ZADD productsSortedByRating` sets the member's score and keeps the index ordered |
| Redis.Cache.KeysWithPrefix | backend/seeder.js:64 | `KEYS product:*` is exactly the keys present that start with the prefix |
| Redis.Cache.AcquireLock | backend/controllers/orderController.js:141 | a set-if-absent on the held locks: succeeds exactly when the key was not held, and the key is held afterwards |
| Redis.Cache.ReleaseLock | backend/controllers/orderController.js:194 | removes the lock key |
| Redis.HSetObject | backend/controllers/orderController.js:99-100 | `hSet(key, serialize(obj))`: the hash under `key` becomes the merge of `Flat(obj)` into what it held |
| Redis.ZAdd | backend/seeder.js:41-44 | after `ZADD`, the index holds the new (score, member) entry and every old entry of other members |
| Redis.ZAddRanked | backend/seeder.js:41-44 | `ZADD` keeps the index in Redis order: ascending score, equal scores by member bytes |
| Redis.ZRange | backend/controllers/productController.js:27 | `ZRANGE key start stop` with non-negative bounds is the members from rank `start` to rank `stop` inclusive, cut at the end of the index |
| Redis.FreshlyCached | backend/controllers/orderController.js:99-100 | on an absent key, `hSet(key, serialize(obj))` stores exactly `obj`'s JSON texts, and decoding the hash's entries gives `obj` back |
| Redis.MergeOverSameKeys | backend/controllers/userController.js:221-222 | `HSET` of `serialize(obj)` over a hash with the same fields in the same order stores exactly `obj`'s texts |
| Redis.MergeFromKeeps | backend/controllers/userController.js:137-138 | `HSET` leaves alone any field the array does not name |
| Redis.CachedRecordRoundTrip | backend/controllers/orderController.js:93-101 | a record cached on a miss and read back on the next hit, decoded from the hash's entries, is the record itself |
| Redis.CachedRecordReadsEmptyAsWritten | backend/controllers/orderController.js:94 | a record without a `length` field, cached by `hSet(key, serialize(obj))`, reads back as `{}` the way the controllers read it, while the corrected reading gives the record |
| Redis.DeserializeHashAsWritten | backend/utils/redisHelper.js:8-14 | `deserialize` applied to the object `hGetAll` returns: `array.length` is the hash's `length` field, so the result is `{}` unless that field holds a positive number; then the loop reads the fields named `0`, `1`, ... and fails when field `1` is missing, as `JSON.parse(undefined)` throws |
| Models.OrderObject | backend/controllers/orderController.js:99 | `order.toObject()` is non-empty and has unique keys |
| Models.UserObject | backend/controllers/userController.js:64 | `user.toObject()`: unique keys, including `password` |
| Models.PublicUser | backend/controllers/userController.js:25-30 | `{ _id, name, email, isAdmin }` never has a `password` field |
| Models.ProductObject | backend/seeder.js:34 | `product.toObject()` has unique keys |
| Models.PaymentObjectFields | backend/controllers/orderController.js:163-168 | the saved `paymentResult` holds `id`, `status`, `update_time` and `email_address` as the request set them, and has no field for one the request left `undefined` |
| Orders.ProjectAll | backend/controllers/orderController.js:47-53 | the order's items are the request items projected onto name, qty, image, price and product, one for one; the price comes from the request |
| Orders.AddOrderItems | backend/controllers/orderController.js:11-80 | a missing item list fails with the `map` error; an empty list gets 400 and no order; an item whose product is missing or has `countInStock < qty` gets 400 and no order; otherwise the order is appended to the store, each serialized field is written under `order:<id>` and the reply is 201 with the order; stock is never changed |
| Orders.WriteEach | backend/controllers/orderController.js:71-73 | the loop of single-field `hSet`s leaves the hashes as `WriteFields` |
| Orders.GetOrderById | backend/controllers/orderController.js:86-111 | store, cache and reply are `ReadOrder` as written: a non-empty cached hash is handed to `deserialize` and what it gives is sent; otherwise the store is read: absent gives 404 with nothing written, present is cached and sent |
| Orders.ReadOrderCaches | backend/controllers/orderController.js:93-106 | as written, the first lookup of a stored order sends it and caches it, and the next lookup hits the cache and sends `{}` |
| Orders.ReadOrderCachesCorrected | backend/controllers/orderController.js:93-101 | with the corrected reading, the next lookup after the one that caches the order sends the same order |
| Orders.MyOrders | backend/controllers/orderController.js:117-120 | `getMyOrders` lists exactly the orders whose user is the caller |
| Orders.LockKeys | backend/controllers/orderController.js:135 | one key `locks:product:<product>` per line item, in line-item order |
| Orders.LockKeyInjective | backend/controllers/orderController.js:135 | two lock keys are equal exactly when they name the same product |
| Orders.AcquireLocks | backend/controllers/orderController.js:140-146 | the acquire loop takes the locks in order up to the first refusal; `locksAcquired` is exactly the keys taken, none of them held before |
| Orders.AllLocksAcquired | backend/controllers/orderController.js:135-146 | every lock is acquired exactly when no item's key was held and no two items name the same product |
| Orders.SettleStock | backend/controllers/orderController.js:149-159 | the stock loop leaves the products and the failure as `Settle` |
| Orders.SettleKeepsStockNonNegative | backend/controllers/orderController.js:154-157 | a product is decremented only after `countInStock >= qty` is checked, so stock that was non-negative stays non-negative |
| Orders.SettleFromOutcome | backend/controllers/orderController.js:149-159 | with distinct products, the loop succeeds exactly when it reaches the end; every item before the stopping point is decremented by its qty; products it did not reach stay as they were |
| Orders.SettleIsNotAtomic | backend/controllers/orderController.js:149-159 | concretely: with product a at 5 and b at 0, paying (a×2, b×1) fails on b and leaves a at 3 |
| Orders.ReleaseLocks | backend/controllers/orderController.js:192-195 | the `finally` loop removes exactly the acquired keys |
| Orders.UpdateOrderToPaid | backend/controllers/orderController.js:126-196 | store, cache and reply are `Pay` of the old state; the held locks are the same after the request as before it, on every path |
| Orders.PaidOnlyWhenSettled | backend/controllers/orderController.js:126-196 | the reply is 200 exactly when the order exists, every lock was acquired, every item passed the stock check and `req.body.payer` is present and not `null` (a payer without `email_address` still pays); on any other reply the orders and the order hashes are unchanged |
| Orders.PayStockEffect | backend/controllers/orderController.js:128-159 | a missing order gives 404 with nothing touched; a refused lock leaves the stock untouched; otherwise the stock is whatever the loop left, even when the loop failed |
| Orders.PayerEmail | backend/controllers/orderController.js:167 | reading `payer.email_address` throws exactly when `payer` is absent or `null`; it is defined exactly when `payer` is an object with that field, and is then that field's value |
| Orders.PaymentRecorded | backend/controllers/orderController.js:161-168 | on success the stored payment result reads `id`, `status` and `update_time` from the request, and has `email_address` exactly when the payer object has it, so `payer: {}` records no address |
| Orders.PayChangesOneOrder | backend/controllers/orderController.js:161-183 | payment changes no other order; on success the order is paid and `paidAt` is the current time |
| Orders.UpdateOrderToDelivered | backend/controllers/orderController.js:229-257 | store, cache and reply are `Deliver` of the old state: 404 when absent, otherwise the order is marked delivered and its fields are rewritten under `order:<id>` |
| Orders.DeliverChangesOneOrder | backend/controllers/orderController.js:233-245 | delivery changes no other order or order hash, sets `isDelivered` and `deliveredAt`, and keeps the payment state and the items |
| Orders.OrdersJson | backend/controllers/orderController.js:214-217 | the listed orders are the store's orders, one `toObject()` each, in store order |
| Orders.GetOrders | backend/controllers/orderController.js:204-222 | a cached non-empty `orders` string is parsed and sent; otherwise the store's list is stored under `orders` and sent |
| Orders.CachedOrdersAreStale | backend/controllers/orderController.js:206-211 | once `orders` holds a non-empty string, what `getOrders` sends no longer depends on the store |
| Products.ProductKey | backend/controllers/productController.js:57 | `product:<id>` is the prefix followed by the id |
| Products.ProductKeyInjective | backend/controllers/productController.js:57 | distinct ids have distinct cache keys |
| Products.PageNumber | backend/controllers/productController.js:12 | `parseInt(pageNumber) \|\| 1`: the parsed number when non-zero, otherwise 1 |
| Products.TotalPages | backend/controllers/productController.js:17-18 | `Math.ceil(count / pageSize)`, bounded on both sides for a positive and for a negative page size; a zero page size gives `NaN` (an empty index) or `Infinity`, both sent as `null` and modelled as none |
| Products.PageIsSlice | backend/controllers/productController.js:20-27 | for `page >= 1` the page's ids are the index's members from rank `(page-1)*pageSize` to rank `page*pageSize-1`, at most `pageSize` of them |
| Products.ConsecutivePagesJoin | backend/controllers/productController.js:20-27 | page p followed by page p+1 is the contiguous run of the index from page p's first rank |
| Products.PagesDisjoint | backend/controllers/productController.js:20-27 | two different pages never share an id |
| Products.RankOnPage | backend/controllers/productController.js:17-27 | the product at rank r is on page `r / pageSize + 1` at position `r % pageSize`, and that page is at most `totalPages` |
| Products.PagesAfterLastAreEmpty | backend/controllers/productController.js:17-27 | a page beyond `totalPages` is empty |
| Products.ZeroPageSizeListsAll | backend/controllers/productController.js:11-27 | a page size of 0 makes the range `0..-1`, which lists the whole index |
| Products.NegativePageCountsFromEnd | backend/controllers/productController.js:12-27 | a negative page number makes negative range bounds, which count from the end of the index |
| Products.ListProducts | backend/controllers/productController.js:29-34 | the loop lists one hash per id, in the order of the ids |
| Products.ListedFollowsIndex | backend/controllers/productController.js:30-34 | the i-th product sent is the hash under the i-th id, `{}` when that key is absent |
| Products.GetProducts | backend/controllers/productController.js:9-44 | the reply is `ProductsPage`: `{ products, page, pages }`, or 500 when the page size has no digits |
| Products.ProductById | backend/controllers/productController.js:52-76 | only the cache is read: a non-empty hash is read back and sent; an absent one, or a parse error, is a 500 |
| Products.ProductByIdTrims | backend/controllers/productController.js:54 | the id is trimmed: surrounding white space does not change the reply |
| Products.SameTrimSameProduct | backend/controllers/productController.js:54-57 | ids that trim to the same string read the same cache key |
| Products.CachedProductSentEmpty | backend/controllers/productController.js:60-66 | as written, a product cached the way the seeder caches it is sent as `{}` |
| Products.CachedProductIsSentCorrected | backend/controllers/productController.js:60-66 | with the corrected reading, a record cached as `serialize(record)` is sent as the record itself |
| Products.DeleteProduct | backend/controllers/productController.js:82-98 | absent gives 404 with nothing changed; present is removed from the store and `product:<id>` is deleted; the sorted index is untouched |
| Products.DeletedProductListedEmpty | backend/controllers/productController.js:91 | since the index keeps a deleted product's id, the listing shows `{}` in its place |
| Products.Reviewed | backend/controllers/productController.js:121-130 | the review is appended, `numReviews` is the review count and `rating × numReviews` is the sum of the ratings; the other fields are kept |
| Products.CreateProductReview | backend/controllers/productController.js:105-142 | store, cache and reply are `AddReview` of the old state; the index, values, emails and locks are untouched |
| Products.ReviewOncePerUser | backend/controllers/productController.js:112-128 | a second review by the same user gets 400 with nothing changed, so at most one review per user survives |
| Products.ReviewRewritesCache | backend/controllers/productController.js:132-135 | after a review, a product hash that held the old record holds the new one |
| Users.UserKey | backend/controllers/userController.js:65 | `user:<id>` is the prefix followed by the id |
| Users.FindByEmail | backend/controllers/userController.js:19 | `User.findOne({ email })` is the first user with that email, or none when no user has it |
| Users.FindByEmailAppended | backend/controllers/userController.js:19 | a user appended after all users with other emails is the one found |
| Users.AuthUser | backend/controllers/userController.js:9-35 | an email not in `emails` gets 401 before the store is read; otherwise the reply is 200 with the public view exactly when the first user with that email matches the password, else 401 |
| Users.RegisterUser | backend/controllers/userController.js:41-78 | store, cache and reply are `Register`: an email in `emails` gets 400 with nothing changed; otherwise the user is appended to the store, the email is added and the user is cached at `user:<id>` |
| Users.RegisterThenAuthenticate | backend/controllers/userController.js:13-65 | a freshly registered user can log in with their password, and registering the same email again gets 400 with nothing changed |
| Users.PickPublic | backend/controllers/userController.js:106-112 | the profile reply never has a `password` field |
| Users.PickPublicOfUser | backend/controllers/userController.js:101-112 | picking the public fields of a user's `toObject()` gives exactly `{ _id, name, email, isAdmin }` |
| Users.UserProfile | backend/controllers/userController.js:95-117 | a miss reads the store (404 when absent) and writes nothing back; a hit replies with the public fields of what the hash reads back as, or fails on bad JSON; a 200 never carries the password |
| Users.RegisteredProfileReadsEmpty | backend/controllers/userController.js:98-112 | as written, the hash cached at registration reads back as `{}`, whose public fields are all `undefined`, so the profile sent is `{}` |
| Users.RegisteredProfileIsCachedCorrected | backend/controllers/userController.js:98-112 | with the corrected reading, the hash cached at registration reads back as the user's public view |
| Users.UserById | backend/controllers/userController.js:188-206 | a miss reads the store without the password field (404 when absent); a hit sends what the hash reads back as |
| Users.UserByIdAfterRegisterIsEmpty | backend/controllers/userController.js:191-204 | as written, `getUserById` right after a registration hits the cached hash and sends `{}` |
| Users.UserByIdShowsCachedPasswordCorrected | backend/controllers/userController.js:191-201 | with the corrected reading, the same request would send the cached password field, which the store path removes |
| Users.ProfileEdit | backend/controllers/userController.js:127-132 | name and email are the given ones when non-empty and fall back when absent or empty; the password changes exactly when a non-empty one is given; `isAdmin` is kept |
| Users.UpdateUserProfile | backend/controllers/userController.js:123-150 | store, cache and reply are `UpdateProfile`: 404 when absent; otherwise the edited user is saved and cached without the password; `emails` is unchanged |
| Users.ProfileUpdateKeepsCachedPassword | backend/controllers/userController.js:136-138 | since `HSET` does not delete fields, a password cached earlier survives a profile update |
| Users.ChangedEmailLocksOut | backend/controllers/userController.js:123-150 | a user who changes their email to one not in `emails` can log in with neither address: the stored user has the new address, which updates never add to `emails`, and no stored user has the old one |
| Users.AdminEdit | backend/controllers/userController.js:215-217 | name and email are the given ones when non-empty and fall back when absent or empty; `isAdmin` is `Boolean(req.body.isAdmin)`, so absent means false; the password is kept |
| Users.UpdateUser | backend/controllers/userController.js:211-234 | store, cache and reply are `UpdateUserOutcome`; `emails` is unchanged |
| Users.UpdateUserRewritesCache | backend/controllers/userController.js:221-222 | a user hash holding an earlier `toObject()` holds the edited user's afterwards |
| Users.DeleteUser | backend/controllers/userController.js:163-182 | 404 when absent, 400 for an admin, with nothing changed; otherwise the store record and `user:<id>` are removed and `emails` is untouched |
| Users.DeletedEmailStaysTaken | backend/controllers/userController.js:173-175 | after a deletion the email stays in `emails`: registering it again gets 400 and logging in with it gets 401 |
| Seeder.Zip | backend/seeder.js:24 | `insertMany` pairs each user with its id, in order; distinct ids give unique keys |
| Seeder.Owned | backend/seeder.js:27-29 | each sample product is copied with `user` set to the owner |
| Seeder.ImportData | backend/seeder.js:18-53 | orders, products and users are cleared and the users inserted; with no users the import stops before any product; otherwise every sample product is created, owned by the first user, its hash is written and it enters the index |
| Seeder.CreateProducts | backend/seeder.js:31-45 | the loop creates the products in order, leaves the hashes as `HashesAfter` and the index holding exactly one entry per product, with score minus its rating, plus the old entries of other ids |
| Seeder.SeedOne | backend/seeder.js:32-44 | one iteration: the product is appended to the store, `serialize(product)` is merged into `product:<id>`, and `ZADD` sets the score to minus the rating |
| Seeder.SeededOwner | backend/seeder.js:27-29 | every seeded product's owner is the first created user |
| Seeder.SeededHash | backend/seeder.js:34-36 | each product's cache entry is exactly the JSON texts of its `toObject()` |
| Seeder.SeededHashElsewhere | backend/seeder.js:31-45 | the import writes no hash other than the products' |
| Seeder.SeededScoresAreNegatedRatings | backend/seeder.js:39-44 | after seeding an empty index, every entry's score is minus its product's rating |
| Seeder.HigherRatingsFirst | backend/seeder.js:39-44 | in an index of negated ratings, an earlier rank never has a lower rating |
| Seeder.DestroyData | backend/seeder.js:57-78 | the store is emptied; every `product:*` key and the index are deleted; other hashes, values and the `emails` set are untouched |
| Seeder.DeleteKeys | backend/seeder.js:65-67 | the loop deletes exactly the listed keys |
| Seeder.DestroyedProductsAreGone | backend/seeder.js:64-70 | after destroy, `getProductById` replies 500 for every id under either reading, since no product hash is left |
| Seeder.DestroyedIndexListsNothing | backend/seeder.js:70 | after destroy, `getProducts` lists no product |
| CartUtils.LineDollars | frontend/src/utils/cartUtils.tsx:13 | one line's `(price * 100 * qty) / 100` is the line's cents total, in dollars |
| Money.AddDecimals | frontend/src/utils/cartUtils.tsx:4-6 | `Math.round(num * 100) / 100` is the whole number of cents within half a cent of `num`, halves rounded up |
| Money.AddDecimalsOfCents | frontend/src/slices/cartSlice.tsx:26-28 | rounding an amount that is already whole cents leaves it unchanged |
| Money.Tax | frontend/src/slices/cartSlice.tsx:56-58 | 15% of the items price, to the nearest cent |
| Money.AddDecimalsOfTax | frontend/src/slices/cartSlice.tsx:56-58 | rounding `0.15 × itemsPrice` gives exactly `Tax` |
| CartSlice.ReplaceOrAppend | frontend/src/slices/cartSlice.tsx:36-44 | an item whose id is present replaces every entry with that id, wholesale and in place; a new id is appended; other entries are kept; unique ids stay unique |
| CartSlice.AddedOnce | frontend/src/slices/cartSlice.tsx:36-44 | with unique ids, the cart holds the added item exactly once afterwards |
| CartSlice.AddedItemTotal | frontend/src/slices/cartSlice.tsx:36-50 | adding raises the items total by the new line, less the line it replaces |
| CartSlice.Prices | frontend/src/slices/cartSlice.tsx:46-66 | items price is the sum of price × qty; shipping is 0 strictly above 100 dollars and 10 otherwise; tax is 15% to the cent; total is the sum |
| CartSlice.ShippingThreshold | frontend/src/slices/cartSlice.tsx:52-54 | exactly 100 dollars pays 10 dollars of shipping; 100.01 pays none |
| CartSlice.CartState.AddToCart | frontend/src/slices/cartSlice.tsx:34-70 | the items become `ReplaceOrAppend` of the old ones, and the rounding chain of `addDecimals` and `toFixed` leaves the four prices equal to `Prices` of the new items |
| CartUtils.ItemsDollarsIsTotal | frontend/src/utils/cartUtils.tsx:12-15 | the `reduce` of `(price * 100 * qty) / 100` is the cents total, in dollars |
| CartUtils.UpdateCart | frontend/src/utils/cartUtils.tsx:9-34 | the state passed in is updated in place and returned; its items are kept and its four prices become `Prices` of the items |
| CartUtils.TotalsAgree | frontend/src/utils/cartUtils.tsx:26-28 | rounding the unrounded sum of items, shipping and tax gives the same total as summing the rounded fields |
| CartUtils.EmptyCartPrices | frontend/src/utils/cartUtils.tsx:12-28 | an empty cart costs 0 for items, 10 dollars for shipping, 0 for tax and 10 dollars in total |
| Paginate.Paginate | frontend/src/components/Paginate.tsx:11-33 | no list when `pages <= 1`; otherwise `pages` links numbered 1..pages; link n is active exactly when n = page; admin links go to `/admin/productlist/n`, a non-empty keyword to `/search/<kw>/page/n`, otherwise `/page/n` |
| Paginate.ExactlyOneActive | frontend/src/components/Paginate.tsx:28 | exactly one link is active when `1 <= page <= pages`, none otherwise |
| Paginate.RoutesDistinct | frontend/src/components/Paginate.tsx:21-26 | two links never have the same route |
| Paginate.AdminIgnoresKeyword | frontend/src/components/Paginate.tsx:11-26 | admin links ignore the keyword, and an absent `isAdmin` behaves as false |
| Rating.Rating | frontend/src/components/Rating.tsx:10-27 | five stars; star i is full exactly when value ≥ i, half exactly when i − 0.5 ≤ value < i, otherwise empty; the text is shown exactly when it is a non-empty string |
| Rating.AtMostOneHalf | frontend/src/components/Rating.tsx:15-20 | no two stars are half |
| Rating.StarsInOrder | frontend/src/components/Rating.tsx:15-20 | full stars come first, then at most a half star, then empty stars |
| Rating.FullCount | frontend/src/components/Rating.tsx:13-20 | exactly the first n stars are full exactly when n ≤ value < n + 1 (n = 0 below 1, n = 5 from 5 up) |
| Strings.ParseIntOfNatToString | backend/controllers/productController.js:11-12 | `parseInt` reads back the decimal digits of a natural number |
| Strings.NatToStringInjective | frontend/src/components/Paginate.tsx:24-26 | distinct page numbers print as distinct strings |
| Strings.TrimProperties | backend/controllers/productController.js:54 | `trim()` keeps a contiguous piece of the id with no white space at either end, and trimming again changes nothing |

## Left out

- Console logging, `process.exit`, `generateToken` and the JWT cookie, Express routing and the HTTP plumbing have no model. A reply is a `Reply` value.
- `logoutUser` and `getUsers` have no model. Neither touches the store or the cache beyond one unfiltered read.
- Mongoose schema validation, `populate('user', ...)` and `select` projections other than `-password` have no model. An order keeps its user id.
- Saving to `localStorage` in `addToCart` and `updateCart` has no model.
- Floating point is left out. Money is whole cents and a JavaScript dollar amount is an exact `real`. `parseFloat` of an `addDecimals` string gives back the amount exactly, since that amount is already whole cents. `Number((0.15 * state.itemsPrice).toFixed(2))` at cartSlice.tsx:57 is not a round trip: it rounds to the cent, and the model rounds it with `Money.AddDecimals`.
- CartSlice.CartState.AddToCart: in exact arithmetic `toFixed(2)` rounds a half cent away from zero, while `Money.AddDecimals` rounds it up, as `Math.round` does. The two agree on non-negative amounts, but `CartItem` admits a negative `price` or `qty`. For items worth -0.10 dollars the tax is then -0.02 in the code and -0.01 in the model.
- Rating values and review means are exact `real`s, and dates are integers supplied as parameters.
- Concurrency is left out: one request runs at a time. This leaves out the `Promise.all` parallel writes, lock expiry (TTL) and cross-process races. A lock is a key in the held-lock set.
- `serializeOrder`, `acquireLock` and `releaseLock` are imported but not defined in `backend/utils/redisHelper.js`. The first is an opaque function. The lock helpers are a set-if-absent and a remove on the held locks.
- `userController.js` calls `serialize` and `deserialize` without importing them. `productController.js` and `seeder.js` import the cache client as a default export, while `orderController.js` uses a named one. The model assumes these links resolve.
- Redis errors and store errors are left out, apart from the parse failures the model exposes. So are the 500 replies of `addOrderItems`' and `updateOrderToDelivered`'s `catch` blocks.
- The stock check in `addOrderItems` runs its lookups in parallel. The model checks all items against one snapshot of the store, which is the same thing when one request runs at a time.
- `trim()` strips ASCII white space and line terminators, no-break space, the byte-order mark and the Unicode line and paragraph separators. The other Unicode space separators are not modelled.
- Redis.DeserializeHashAsWritten: `Number` of a `length` field is finite or `NaN` (`toNumber` gives `None`). The infinities are left out; a cached field holds `JSON.stringify` output, whose `Number` is never infinite.
- JsObjects.Put: a new key is appended at the end, which is JavaScript's order only for keys that are not integer-like. JavaScript lists integer-like keys (such as `"2"`) first, in ascending order, so `deserialize(["b","1","2","2"])` enumerates as `{"2":2,"b":1}`, where the model gives `b` first. The schema field names the shop caches are never integer-like.
- Redis.Cache.Set: sets no expiry, and neither does the call at orderController.js:217. The node-redis v4 client created in config/redis.js reads `SET` options from an object (`{ EX: 3600 }`), so the positional `'EX', 60 * 60` arguments are dropped and `SET orders <json>` is sent without a TTL. The value stays until it is replaced or deleted, as in the model.
- Orders.CachedOrdersAreStale: holds for as long as the `orders` value exists. No handler writes or deletes `orders` after the first `getOrders`, and no expiry is set, so the admin order list stays stale until the key is deleted by hand.
- Redis.FreshlyCached, Redis.CachedRecordRoundTrip, Redis.MergeOverSameKeys, Products.ListProducts, Products.ListedFollowsIndex: the model keeps a hash's fields in insertion order, and so do `HashJson` and the corrected reading built on it. Redis guarantees that order only while a hash is listpack-encoded: by default at most 128 fields, each value at most 64 bytes. An order's `orderItems` or `shippingAddress` text, or a product's `description`, is usually longer. The hash then becomes a hashtable, and `HGETALL` returns its fields in an unspecified order. These results therefore hold up to the order of the fields: the field set and each field's value are as stated, but the key order of a listed product or a decoded cached record is not guaranteed.
- Seeder.ImportData: states the index by its content, one entry per product with score minus the rating, plus Redis ordering. It does not name the final sequence, because Redis orders equal scores by member bytes and the member bytes depend on the ids.
- CartSlice.CartState.constructor: the initial state has every price 0, and that is not `Prices([])`, which charges 10 dollars of shipping. The first `addToCart` or `updateCart` makes the prices agree with the items.

## Findings

| source | as written | input that shows it | evidently intended | confidence | as-written member | corrected member |
|---|---|---|---|---|---|---|
| backend/controllers/orderController.js:94 | `deserialize(cachedOrder)` is passed the object that `hGetAll` returns, but `deserialize` loops over `array.length`. An object has no `length`, so the loop never runs and the result is `{}` (the same call appears at productController.js:64 and userController.js:102 and 195). | Cache an order with `hSet('order:1', serialize(order.toObject()))`, then call `getOrderById('1')`: the reply is `{}` | decode the cached hash's entries, so that a cached record reads back as itself | not executed | Redis.DeserializeHashAsWritten, Redis.CachedRecordReadsEmptyAsWritten, Orders.ReadOrderCaches, Products.CachedProductSentEmpty, Users.RegisteredProfileReadsEmpty, Users.UserByIdAfterRegisterIsEmpty | Redis.DecodeHash, Redis.CachedRecordRoundTrip, Orders.ReadOrderCachesCorrected, Products.CachedProductIsSentCorrected, Users.RegisteredProfileIsCachedCorrected, Users.UserByIdShowsCachedPasswordCorrected |

The read handlers are modelled as written: `Orders.GetOrderById`, `Products.ProductById`, `Users.UserProfile` and `Users.UserById` read a cached hash through `Redis.ReadCached`. `GetOrderById` uses the `AsWritten` reading, and the others are functions of the reading. One consequence of the correction: with it, `getUserById` would send the cached password field on a cache hit (`Users.UserByIdShowsCachedPasswordCorrected`), because registration caches the whole user.
