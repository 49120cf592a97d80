# Online shop backend: request dispatch, authentication and the resource controllers

This project models the server core of a small web shop REST backend. Its parts:

- **`handleRequest` in `routes.js`** decides every request. GET requests outside `/api` are served from the public files. Then come the single-user, single-product and single-order item routes (`/api/users/<id>` and so on, matched by `matchIdRoute`). Last come the four collection routes of `allowedMethods`, with OPTIONS, 405 and 406 handling.
- **`getCurrentUser` in `auth/auth.js`** turns the Basic credentials into the user they name, or into nothing.
- **The controllers of users, products and orders** carry out the operations on their collections.
- **The product and order schemas** decide what a `save` accepts and stores.
- **The `responseUtils` helpers** fix the status code, headers and body of every answer.

How it is modelled:

- **Routing is a pure decision.** `Routes.RouteRequest` maps a request and the user collection to an `Action`. The action is either a response helper or a controller call with the id and caller it is given. The checks keep exactly the code's order, including the fall-through of an unhandled item-route method to the 404 at the end.
- **Controllers are classes.** `UserStore`, `ProductStore` and `OrderStore` each hold their collection as a sequence in natural order, with unique ids as the class invariant. Their methods state the response and the new collection in full.
- **`Server.App.HandleRequest` ties the two together.** It takes the decision and then calls the controller. A terminal decision is answered by its helper, and each collection changes only through the calls that write to it.

Properties proved:

- **Access control.** Every admin-only call has an authenticated admin. Without credentials only registration, public files and response helpers are reached. Only customers place orders, and always as themselves. Every controller call passed the Accept check.
- **Decision order of each route.** For example, on the user item route a customer gets 403 before the Accept check. On the product item route the Accept check comes before the role check.
- **Route matching.** The exact set of paths `matchIdRoute` accepts. The three item routes are disjoint and never name a collection. The `split('/')[3]` id extraction yields the id on `/api/...` paths and `undefined` on the prefix-less form the pattern also admits.
- **OPTIONS.** The `Access-Control-Allow-Methods` header splits back into the route's method list.
- **Schemas.** `save` succeeds exactly when its schema holds, and stores trimmed values. Saving an unchanged stored product gives it back.
- **Product update.** The key-by-key loop of `updateProduct` computes the field-wise merge.
- **Order visibility.** Customers see exactly their own orders. An order of someone else is 404, never 403.

## Model

| member | source | states |
|---|---|---|
| Routes.RouteRequest | routes.js:94-285 | no contract of its own: handleRequest's decision; RouteFacts, StaticBeforeAuthentication, the three item Decisions lemmas, UnknownPathNotFound, CollectionChecksBeforeAuthentication and CollectionCalls state it |
| Routes.CurrentUser | routes.js:107 | no contract of its own: the user getCurrentUser returns for the request's Authorization header, stated by Auth.GetCurrentUser |
| Routes.IsStatic | routes.js:99 | no contract of its own: a GET whose path does not start with `/api`; StaticBeforeAuthentication states its outcome |
| Routes.StaticFileName | routes.js:100 | no contract of its own: `/` and the empty path name index.html, any other path itself; StaticBeforeAuthentication states it |
| Routes.UserItem | routes.js:106-129 | no contract of its own: the user item route's decision; UserItemFacts and UserItemDecisions state it |
| Routes.ProductItem | routes.js:132-159 | no contract of its own: the product item route's decision; ProductItemFacts and ProductItemDecisions state it |
| Routes.OrderItem | routes.js:162-174 | no contract of its own: the order item route's decision; OrderItemFacts and OrderItemDecisions state it |
| Routes.CollectionRoute | routes.js:177-283 | no contract of its own: the collection routes' decision; CollectionFacts, UnknownPathNotFound, CollectionChecksBeforeAuthentication and CollectionCalls state it |
| Routes.MatchIdRoute | routes.js:51-55 | no contract of its own: the anchored pattern `^(/api)?/<prefix>/[0-9a-z]{8,24}$`; MatchedId, ItemPathsMatch and MatchIdRouteShape state it |
| Routes.MatchUserId | routes.js:63-65 | no contract of its own: MatchIdRoute with prefix `users`; ItemRoutesDisjoint states it |
| Routes.MatchProductId | routes.js:73-75 | no contract of its own: MatchIdRoute with prefix `products`; ItemRoutesDisjoint states it |
| Routes.MatchOrderId | routes.js:83-85 | no contract of its own: MatchIdRoute with prefix `orders`; ItemRoutesDisjoint states it |
| Routes.IdSegment | routes.js:118 | no contract of its own: the fourth piece of `split('/')`, or undefined; IdSegmentOfApiPath and IdSegmentOfShortPath state it |
| Routes.SendOptions | routes.js:30-42 | a known route gets 204 with an Allow-Methods header that splits back to that route's method list; any other path gets 404 |
| Routes.OptionsListsAllowedMethods | routes.js:31-37 | joining a route's allowed methods with `,` and splitting again gives the list back |
| Routes.SplitJoin | routes.js:33 | for separator-free pieces, split after join is the identity |
| Routes.MatchedId | routes.js:51-55 | a url the pattern accepts ends in an 8-24 character `[0-9a-z]` id after `/api/<prefix>/` or `/<prefix>/` |
| Routes.ItemPathsMatch | routes.js:51-55 | both `/api/<prefix>/<id>` and `/<prefix>/<id>` match for every id token |
| Routes.MatchIdRouteShape | routes.js:51-55 | `matchIdRoute` holds exactly on the two path forms with an id token (both directions) |
| Routes.ItemRoutesDisjoint | routes.js:63-85 | no path matches two item routes, and an item path is never a key of `allowedMethods` |
| Routes.IdSegmentOfApiPath | routes.js:118 | on `/api/<prefix>/<id>` the fourth split piece is the id |
| Routes.IdSegmentOfShortPath | routes.js:141 | on the prefix-less form the fourth split piece is missing, so the controller receives `undefined` |
| Routes.ResponseOf | routes.js:109-232 | 401 comes only from the authentication rejection, always with `WWW-Authenticate: Basic`; 400 only from the Content-Type rejection; 204 only from OPTIONS on a known route; 404 only from unknown paths |
| Routes.StaticBeforeAuthentication | routes.js:99-102 | a GET outside `/api` serves the public file (index.html for `/`) whatever the credentials |
| Routes.UserItemFacts | routes.js:106-129 | every decision of the user item route satisfies the access facts |
| Routes.ProductItemFacts | routes.js:132-159 | every decision of the product item route satisfies the access facts |
| Routes.OrderItemFacts | routes.js:162-174 | every decision of the order item route satisfies the access facts |
| Routes.CollectionFacts | routes.js:177-283 | every decision of the collection routes satisfies the access facts |
| Routes.RouteFacts | routes.js:94-285 | whatever handleRequest decides satisfies the access facts: admin-only calls have an admin; every controller call but registration has a user, and updateUser, deleteUser, viewOrder, addOrder and getAllOrders get that user as caller; every call passed the Accept check; only the three POST calls (register, addProduct, addOrder) passed the Content-Type check; each action names its route, method and path id |
| Routes.ItemRoutesIgnoreContentType | routes.js:106-174 | the item routes never check the Content-Type: their decision is the same for a JSON and a non-JSON body, so an admin's PUT on a user or product reaches updateUser or updateProduct without a JSON Content-Type |
| Routes.AdminOnlyNeedsAdmin | routes.js:106-259 | viewing, updating or deleting a user, listing users, and updating, deleting or adding a product are reached only by an authenticated admin |
| Routes.NoCredentialsNoControllerCall | routes.js:106-283 | without credentials no controller call except registration is reached |
| Routes.OrdersPlacedByCustomers | routes.js:223-237 | addOrder is reached only by an authenticated customer, as its caller, with a JSON Content-Type |
| Routes.UserItemDecisions | routes.js:106-129 | on the user item route the checks run 401, then 403 for customers, then 406; then GET/PUT/DELETE go to view/update/delete with the path id, and any other method is 404 |
| Routes.ProductItemDecisions | routes.js:132-159 | on the product item route the checks run 401, then 406; GET is open to every user; other methods are 403 for customers, PUT/DELETE go to update/delete for admins, and any other method is 404 |
| Routes.OrderItemDecisions | routes.js:162-174 | on the order item route the checks run 401, then 406; GET views the order for the caller, and any other method is 404 |
| Routes.UnknownPathNotFound | routes.js:177 | an API path that is no item route and no collection route is 404 for any method and credentials |
| Routes.CollectionChecksBeforeAuthentication | routes.js:180-190 | on a collection route, OPTIONS, 405 and 406 are decided before and regardless of the credentials |
| Routes.CollectionCalls | routes.js:193-283 | with Accept passed, each collection route and method leads to its rejection or controller call in the code's order; registration needs no credentials |
| Server.App.HandleRequest | routes.js:94-285 | the decided response helper answers a terminal decision; renderPublic serves static files; each controller call gives the response and new collection its controller's specification states, for the id and caller of the decision; each collection changes only through its writing calls; all store invariants are kept |
| Requests.GetCredentials | auth/auth.js:17-18 | a missing or empty Authorization header gives no credentials |
| Auth.GetCurrentUser | auth/auth.js:11-28 | no credentials or an unknown email give no user; a user it gives is stored, has the credentials' email and passes the password check |
| Auth.CurrentUserIsFirstWithEmail | auth/auth.js:20-27 | with credentials, the outcome is the first user with that email if the password check passes, and no user otherwise |
| Collections.FindIndex | controllers/users.js:26 | the first position satisfying the query, or none when nothing does (both directions) |
| Collections.Filter | controllers/orders.js:20-22 | the elements that satisfy the query, and only those, each as often as in the input |
| Collections.FilterAppend | controllers/orders.js:20-22 | filtering distributes over concatenation, so the result keeps the input's order |
| Collections.FilterSingleton | controllers/orders.js:20-22 | a one-element sequence keeps its element exactly when the query holds |
| Collections.RemoveAtKey | controllers/users.js:52 | deleting a record by its unique id removes exactly that record and keeps ids unique |
| Collections.AppendFreshKey | controllers/users.js:100 | saving a document with a fresh id keeps ids unique |
| Collections.ReplaceSameKey | controllers/users.js:76 | saving an existing document keeps ids unique |
| UsersController.UserStore.GetAllUsers | controllers/users.js:12-15 | 200 with every user, in collection order |
| UsersController.UserStore.ViewUser | controllers/users.js:25-31 | 200 with the user that has the id; 404 when there is none |
| UsersController.UserStore.DeleteUser | controllers/users.js:42-54 | 404 for an unknown id, checked first; 400 "Bad request" when deleting oneself; otherwise exactly that user is removed and returned |
| UsersController.UserStore.UpdateUser | controllers/users.js:66-83 | 400 when updating oneself, checked before existence; then 404; otherwise only the role changes, to the payload's, or 400 with the store unchanged when the role is invalid |
| UsersController.UserStore.RegisterUser | controllers/users.js:93-107 | the submitted role is dropped; 201 with a new customer appended on a valid save; 400 with the validation error and the store unchanged otherwise |
| UsersController.RegistrationIgnoresRole | controllers/users.js:98 | the registration outcome does not depend on the payload's role, and a registered user is a customer |
| UserModel.ParseRole | controllers/users.js:75 | exactly "admin" and "customer" are roles, and they print back to themselves |
| UserModel.Create | controllers/users.js:99-100 | a new user saves exactly when name, email and password are present and accepted and the role is absent or known; an absent role defaults to customer |
| UserModel.SetRole | controllers/users.js:75-76 | the save after assigning the role succeeds exactly for a known role and changes nothing else |
| ProductsController.ProductStore.GetAllProducts | controllers/products.js:12-15 | 200 with every product, in collection order |
| ProductsController.ProductStore.DeleteProduct | controllers/products.js:25-33 | 404 for an unknown id; otherwise exactly that product is removed and returned |
| ProductsController.ProductStore.ViewProduct | controllers/products.js:43-49 | 200 with the product that has the id; 404 when there is none |
| ProductsController.ProductStore.UpdateProduct | controllers/products.js:60-76 | 404 for an unknown id; otherwise the payload is merged key by key and saved: 200 with the replaced product, or 400 with the store unchanged |
| ProductsController.ProductStore.AddProduct | controllers/products.js:88-97 | 201 with the new product appended when the schema holds; 400 with the store unchanged otherwise |
| ProductsController.ObjectKeys | controllers/products.js:65 | a stored product's keys are name and price, plus image and description exactly when set |
| ProductsController.AssignKeysFields | controllers/products.js:65-67 | after the loop, a field holds the payload's value exactly when its key was visited and the payload defines it |
| ProductsController.Assign | controllers/products.js:66 | no contract of its own: one step of the loop, setting the key's field from the payload; AssignKeysFields states its effect |
| ProductsController.AssignKeys | controllers/products.js:65-67 | no contract of its own: the loop's effect after a sequence of keys; AssignKeysFields and AssignAllKeys state it |
| ProductsController.Merge | controllers/products.js:65-67 | no contract of its own: the field-wise merge of payload and product; MergeTakesDefined and MergeKeepsUndefined state it, and AssignAllKeys and AssignOwnKeys tie it to the loop |
| ProductsController.AssignOwnKeys | controllers/products.js:65-67 | the `for ... in` loop over the product's own keys, assigning each key the payload defines, yields the field-wise merge |
| ProductsController.AssignAllKeys | controllers/products.js:65-67 | the loop over a product's own keys computes the field-wise merge |
| ProductsController.MergeTakesDefined | controllers/products.js:65-66 | a key the product has and the payload defines takes the payload's value |
| ProductsController.MergeKeepsUndefined | controllers/products.js:66 | a field the payload leaves undefined keeps its stored value, and a field the product lacks is never added |
| OrdersController.OrdersOf | controllers/orders.js:20-22 | the orders of one customer: exactly those they own, each as often as stored |
| OrdersController.OrdersOfAppend | controllers/orders.js:20-22 | the orders of a customer in a concatenation are those of each part, in order |
| OrdersController.OrderStore.GetAllOrders | controllers/orders.js:13-26 | 200 with a JSON Content-Type; an admin gets every order in collection order; a customer gets exactly the subsequence of orders they own |
| OrdersController.Visible | controllers/orders.js:43-51 | no contract of its own: an admin sees every order, a customer the orders they own; OrderStore.GetAllOrders and OrderStore.ViewOrder state it |
| OrdersController.OrderStore.ViewOrder | controllers/orders.js:37-53 | 404 for an unknown id; an admin sees any order, a customer only their own; someone else's order is 404, never 403 |
| OrdersController.OrderStore.AddOrder | controllers/orders.js:64-76 | the order's owner is the caller whatever the payload says; 201 with the order appended on a valid save; 400 with the store unchanged otherwise |
| OrdersController.PlaceSingleItemOrder | controllers/orders.js:64-68 | an order with one valid item is stored with the caller as owner and that item |
| ProductModel.Save | models/product.js:18-68 | save succeeds exactly when name, price and image satisfy the schema, and it stores the trimmed values |
| ProductModel.SaveStoredProduct | models/product.js:27-67 | saving a stored product again unchanged gives back the same product |
| ProductModel.SaveStoredFields | models/product.js:27-67 | a stored product's fields pass the schema again, and trimming leaves its name, image and description unchanged |
| ProductModel.SaveRejects | models/product.js:27-46 | a blank or missing name, or a missing, non-numeric, zero or negative price, fails the save |
| OrderModel.StoreItem | models/order.js:5-45 | a valid item is stored with its product id and price, trimmed strings and an integral quantity of at least 1 |
| OrderModel.Save | models/order.js:53-86 | save succeeds exactly when there is an owner and a non-empty list of valid items; the stored items are the payload's, in order |
| OrderModel.SaveRejectsItem | models/order.js:5-45 | one item with a missing id, a blank name, a bad price or a non-integral or zero quantity fails the whole order |
| OrderModel.SaveRejectsMissing | models/order.js:63-85 | an order without an owner or without items fails |
| SchemaTypes.Trim | models/product.js:30 | `trim: true` keeps an infix with no whitespace at either end and cuts only whitespace before and after it; the result is empty exactly for all-whitespace input |
| SchemaTypes.TrimOfTrimmed | models/product.js:30 | trimming leaves a value alone exactly when it is already trimmed |
| SchemaTypes.TrimIdempotent | models/product.js:30 | trimming twice is trimming once |
| SchemaTypes.TrimOpt | models/product.js:56 | an absent optional field stays absent; a present one is trimmed |
| ResponseUtils.BasicAuthChallenge | utils/responseUtils.js:8-11 | no contract of its own: the response the helper writes; ResponseUtils.ChallengeShape states it |
| ResponseUtils.SendJson | utils/responseUtils.js:21-24 | no contract of its own: the response the helper writes; ResponseUtils.SendJsonShape states it |
| ResponseUtils.CreatedResource | utils/responseUtils.js:35-37 | no contract of its own: the response the helper writes; ResponseUtils.SendJsonShape states it |
| ResponseUtils.NoContent | utils/responseUtils.js:46-49 | no contract of its own: the response the helper writes; ResponseUtils.StatusOnlyHelpers states it |
| ResponseUtils.Unauthorized | utils/responseUtils.js:72-75 | no contract of its own: the response the helper writes; ResponseUtils.StatusOnlyHelpers states it |
| ResponseUtils.Forbidden | utils/responseUtils.js:84-87 | no contract of its own: the response the helper writes; ResponseUtils.StatusOnlyHelpers states it |
| ResponseUtils.NotFound | utils/responseUtils.js:96-99 | no contract of its own: the response the helper writes; ResponseUtils.StatusOnlyHelpers states it |
| ResponseUtils.MethodNotAllowed | utils/responseUtils.js:108-111 | no contract of its own: the response the helper writes; ResponseUtils.StatusOnlyHelpers states it |
| ResponseUtils.ContentTypeNotAcceptable | utils/responseUtils.js:120-123 | no contract of its own: the response the helper writes; ResponseUtils.StatusOnlyHelpers states it |
| ResponseUtils.InternalServerError | utils/responseUtils.js:132-135 | no contract of its own: the response the helper writes; ResponseUtils.StatusOnlyHelpers states it |
| ResponseUtils.RedirectToPage | utils/responseUtils.js:145-148 | no contract of its own: the response the helper writes; ResponseUtils.RedirectShape states it |
| ResponseUtils.ChallengeShape | utils/responseUtils.js:8-11 | the challenge is 401 with `WWW-Authenticate: Basic` and no body |
| ResponseUtils.SendJsonShape | utils/responseUtils.js:21-37 | the given code, 200 by default, with a JSON Content-Type and the payload as body; createdResource is the same with 201 |
| ResponseUtils.BadRequest | utils/responseUtils.js:59-64 | always 400; a JSON `{error}` body exactly when the error is truthy |
| ResponseUtils.StatusOnlyHelpers | utils/responseUtils.js:46-135 | noContent, unauthorized, forbidden, notFound, methodNotAllowed, contentTypeNotAcceptable and internalServerError carry only their status code |
| ResponseUtils.RedirectShape | utils/responseUtils.js:145-148 | a 302 redirect with the target in `Location` and no body |

## Left out

- The HTTP method is taken as already upper-cased, and the path as already extracted from the URL. `toUpperCase` and the `URL` parser are not modelled.
- `acceptsJson`, `isJson`, `getCredentials` and `parseBodyJson` of `utils/requestUtils.js` are not part of this model. Their results are given request facts, and a missing or empty header gives no credentials. A body that fails to parse, and JSON `null` values, are not modelled.
- `renderPublic` (`utils/render.js`) reads files, so it is a parameter of `Server.App`. The file contents are not modelled.
- The user schema (`models/user.js`) is not part of this model. What it checks of name, email and password is the abstract predicate `accepts`. The model stores the password as submitted: the schema's hashing of it is not modelled, and the password check `checkPassword` is an abstract function. Only the role rules are spelled out: the default role is customer, and a role must be "admin" or "customer".
- UserModel.SetRole: an absent role in the update payload is modelled as a validation failure, because the user schema that decides it is not available.
- The uniqueness index on user emails and the email check of `registerUser` are not modelled. The email check is commented out in the source.
- Document ids are strings, and a new document's id is a fresh-id parameter, not generated. A path id that is not a valid ObjectId makes the document mapper throw a cast error. The model treats it as an unknown id (404) instead.
- An ordered item's `product._id` is cast to an ObjectId by the order schema (models/order.js:7-12). A string that is not a valid ObjectId fails the save with 400 in the source. The model accepts any string and answers 201.
- Body fields are typed: text fields are strings and a price is a number or not a number. A JSON value of another type (a number as a name, an object as an email) is cast or rejected by the schemas in the source; that is not modelled.
- ProductsController.ObjectKeys: the `_id` and `__v` keys of `toObject()` are left out of the update loop. A payload that sets them is not modelled.
- Prices and quantities are exact reals. Floating point, `Decimal128`, the two-digit precision hint and number casts other than "number or not a number" are not modelled.
- The image pattern of the product schema is the abstract predicate `uri`.
- A validation error carries only the model's name, not the per-field messages.
- All calls are sequential. The asynchronous awaits and concurrent requests are not modelled.
- `index.js` (server start-up), `models/db.js` (connection) and the front-end scripts under `public/js` are not modelled.
- `unauthorized`, `noContent`, `internalServerError` and `redirectToPage` are modelled although the core never calls them.
