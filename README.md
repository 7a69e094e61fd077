# Products CRUD app — a Dafny model of its request handlers and client cache

The application manages products (name, price, image URL) through a REST API
and a single-page UI. Two pieces hold its logic, and they are what this
project models:

- **The product request handlers** (`backend/controllers/product.controller.js`):
  create, list, delete and update. Each turns a request plus the outcome of one
  persistence call into one HTTP status and one envelope
  `{success, data?, message?}`. They are modelled as pure functions in module
  `ProductController`. Each function returns the persistence request the
  handler issues (or `None`) together with the response. The persistence
  outcome is an input: `DbOk(data) | DbErr | Thrown`.
- **The client product store** (`frontend/src/store/product.js`): a cache
  holding one `products` list that four methods update in place. It is
  modelled as class `ProductStore.ProductStore` with a `seq<Product>` field.
  The list transforms are pure functions: `Without` for the `filter` in
  delete and `Replaced` for the `map` in update. Each HTTP call's outcome is
  an input `Ok(data, message) | Err(responseMessage, errorMessage)`.

Request fields are JavaScript values (module `Values`): `Missing` (an absent
property), `Null`, `Bool`, `Num` and `Str`. Validation uses JavaScript
truthiness. `Missing`, `Null`, `Bool(false)`, `Num(0)` and `Str("")` are
falsy, and the string `"0"` is truthy, so a form that sends the price as a
string `"0"` passes validation (`ZeroPriceStringIsAccepted`).

The store compares products by their `_id` property (field `underscoreId`).
The handlers delete and update by the database column `id`. Both are
modelled as written. `DeleteWithoutUnderscoreIdsClearsCache` and
`UpdateWithoutUnderscoreIdsOverwritesCache` show what follows when the
cached records carry no `_id` and the view therefore passes `undefined`:
a successful delete empties the whole cache, and a successful update
overwrites every cached product with the returned record.

Three behaviours of the code are easy to miss:
- The update handler does not validate its fields. It never answers 400.
- The store's delete removes every product whose `_id` matches, not just one.
- The store's update replaces every position whose `_id` matches.

## Model

| member | source | states |
|---|---|---|
| Values.Truthy | backend/controllers/product.controller.js:6 | A value is truthy exactly when it is none of the five falsy values: `undefined`, `null`, `false`, `0` and `""`. So the string "0" is truthy. |
| Values.Or | frontend/src/store/product.js:100 | JavaScript's logical or of `a` and `b`: the result is one of the two operands. It is truthy exactly when either operand is. When `a` is truthy the result is `a`, and otherwise it is `b`. |
| Values.AllFieldsTruthy | frontend/src/store/product.js:41 | Holds exactly when the create guard (not name, or not image, or not price) is false, i.e. when every field is truthy. The same predicate serves the guards at frontend/src/store/product.js:87 and backend/controllers/product.controller.js:6, which test the fields in another order. |
| ProductController.CreateProduct | backend/controllers/product.controller.js:3-36 | 400 "Please provide all fields." exactly when a field is falsy, and then no insert is issued. Otherwise it inserts the three fields and answers 201 with the stored row on success, or 500 on a persistence error or a thrown exception. The response conforms to the envelope rules. |
| ProductController.GetProducts | backend/controllers/product.controller.js:38-61 | Selects rows ordered by `created_at`, newest first. Answers 200 `{success:true, data}` exactly when persistence succeeds, and 500 otherwise. |
| ProductController.DeleteProduct | backend/controllers/product.controller.js:63-85 | Deletes where `id` equals the path id. Answers 200 `{success:true, message:"Product Deleted"}` exactly when persistence reports no error, and 500 otherwise. |
| ProductController.UpdateProduct | backend/controllers/product.controller.js:87-115 | Always issues the update for `id`, with no field check. Answers 200 `{success:true, data}` with no message on success, and 500 otherwise. |
| ProductController.CreateRejectionIgnoresPersistence | backend/controllers/product.controller.js:6-11 | When a field is falsy, the answer does not depend on persistence at all, and no insert is issued. |
| ProductController.ZeroPriceStringIsAccepted | backend/controllers/product.controller.js:6 | The string price "0" passes the field check; the number 0 gets 400. |
| ProductController.DeleteIgnoresMatchCount | backend/controllers/product.controller.js:66-80 | The delete answer is the same whether or not a row matched. |
| ProductController.UpdateNeverRejectsFields | backend/controllers/product.controller.js:87-107 | Update never answers 400, whatever the body holds. |
| ProductController.FailuresAreGeneric | backend/controllers/product.controller.js:20-114 | On every handler, a persistence error and a thrown exception get the same answer. That answer's message is always "Internal Server Error" and carries no error detail. |
| ProductStore.ErrorMessage | frontend/src/store/product.js:54 | The failure message is the response body's message if truthy, else the error's own message if truthy, else the fallback. It is truthy whenever the fallback is non-empty, as every store fallback is. |
| ProductStore.Without | frontend/src/store/product.js:75 | The result holds exactly the products whose `_id` differs from `pid`, and it is no longer than the input. |
| ProductStore.Replaced | frontend/src/store/product.js:94-96 | Same length as the input. Each position whose `_id` equals `pid` holds the returned record; every other position is unchanged. |
| ProductStore.WithoutConcat | frontend/src/store/product.js:75 | Filtering distributes over concatenation, so the kept products stay in their original relative order. |
| ProductStore.WithoutCounts | frontend/src/store/product.js:75 | Every product not keyed by `pid` keeps its multiplicity, and products keyed by `pid` are gone. |
| ProductStore.WithoutIdempotent | frontend/src/store/product.js:73-77 | Deleting the same `pid` twice gives the same list as deleting it once. |
| ProductStore.WithoutNoMatch | frontend/src/store/product.js:74-76 | Deleting a `pid` that no product carries leaves the list unchanged. |
| ProductStore.ReplacedNoMatch | frontend/src/store/product.js:93-97 | Updating a `pid` that no product carries leaves the list unchanged. |
| ProductStore.ReplacedIdempotent | frontend/src/store/product.js:93-97 | Applying the same update twice gives the same list as applying it once. |
| ProductStore.DeleteWithoutUnderscoreIdsClearsCache | frontend/src/store/product.js:75 | If no cached product has an `_id` and `pid` is `undefined`, a successful delete empties the cache. |
| ProductStore.UpdateWithoutUnderscoreIdsOverwritesCache | frontend/src/store/product.js:95 | If no cached product has an `_id` and `pid` is `undefined`, every product after a successful update is the returned record. |
| ProductStore.ProductStore.constructor | frontend/src/store/product.js:35 | The cache starts empty. |
| ProductStore.ProductStore.SetProducts | frontend/src/store/product.js:37 | The cache becomes exactly the given list. |
| ProductStore.ProductStore.CreateProduct | frontend/src/store/product.js:39-57 | A falsy field gives failure "Please fill in all fields." with no request sent and the cache unchanged. Otherwise it posts the fields. On success the returned record is appended at the end with message "Product created successfully."; on transport failure the message comes from the fallback chain and the cache is unchanged. |
| ProductStore.ProductStore.FetchProducts | frontend/src/store/product.js:59-69 | On success the cache becomes exactly the server's list and the result is `{success:true}` with no message. On failure the cache is unchanged and the message comes from the fallback chain. |
| ProductStore.ProductStore.DeleteProduct | frontend/src/store/product.js:71-83 | On success the cache becomes `Without(old, pid)` and the message is the server's. On failure the cache is unchanged and the message comes from the fallback chain. |
| ProductStore.ProductStore.UpdateProduct | frontend/src/store/product.js:85-107 | A falsy field gives failure "Please fill in all fields." with no request sent and the cache unchanged. On success the cache becomes `Replaced(old, pid, record)`, with the server's message or else "Product updated successfully.". On failure the cache is unchanged and the message comes from the fallback chain. |

## Left out

- Axios configuration, the base URL, timeouts and the logging interceptors (`frontend/src/store/product.js:4-32`). Each HTTP call is an input outcome, so request paths are not modelled.
- The persistence client's query semantics (insert, select, eq, single, order) and its setup (`backend/config/supabase.js`, `backend/config/db.js`). Each call's outcome is an input. Whether the rows really come back newest first is up to that client; the model only states that the handler asks for that order.
- ProductController.CreateProduct: the inserted price is the body's price as received. The `parseFloat` coercion is floating point and is not modelled. The same holds for ProductController.UpdateProduct.
- `toFixed(2)` price display, and every React view: rendering, toasts, navigation, the confirm dialog, loading and error flags.
- The server bootstrap, CORS and the route table (`backend/server.js`, `backend/routes/product.route.js`). They contain no logic.
- Objects, arrays and `NaN` as field values. Objects and arrays are always truthy, and JSON cannot carry `NaN`.
- Extra properties of a create or update body beyond name, price and image. The store sends the whole object, but only these three fields are modelled.
- Success replies whose body is empty or `null`. The model's `Ok` outcome always carries a record (create, update), a list (fetch) or a message value (delete). An empty 2xx body arrives as `res.data === ""`. Then create appends `undefined` to the cache (frontend/src/store/product.js:47-49), fetch sets `products` to `undefined`, since `"".data` is `undefined` (line 62), and delete reports success with no message, which the model covers as `Ok((), Missing)`.
- A `null` success body for delete. Reading `res.data.message` then throws at line 77, after the cache was already filtered at lines 74-76. The store therefore returns `success:false` with the cache changed, which `ProductStore.ProductStore.DeleteProduct`'s "failure leaves the cache unchanged" clause does not cover. A `null` body for create or fetch throws while the argument of `set` is evaluated (lines 47 and 62), before `set` runs. For update, `res.data.data` is read inside the `map` callback within `set`'s updater (lines 93-96). If some `_id` matches, the throw happens there, before the state is replaced. If none matches, `set` stores a list with unchanged contents and the throw comes at line 100. In all three cases the cache keeps its contents, but the model does not include these cases either.
- Error logging through `console.error`: the handlers' calls (backend/controllers/product.controller.js:21, 30, 46, 55, 73, 82, 100, 109) and the store's calls (frontend/src/store/product.js:53, 65, 79, 103). Logging has no effect on responses or on the cache.
- Interleaving of concurrent requests. The app does not coordinate them, and each store method is modelled as one atomic step.
