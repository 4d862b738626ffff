# Inventory and asset management: a verified model of the server rules

This project models the server side of a small inventory application (products,
categories, suppliers and users in a document store, behind role-gated HTTP
routes) and the product filter of its client page, and proves what the code promises.

- **Status derivation.** The product schema's `pre("save")` hook sets `status` from
  `quantity` and `lowStockThreshold`. `ProductModel` has that rule, the schema
  defaults and enum, `new Product(body)` and `Object.assign(product, body)`.
- **Cascade deletion.** The category and supplier models purge dependent products in
  their `pre("findOneAndDelete")` hooks (`References` and the hook methods of
  `Store.Store`). The category hook purges only when the category exists. The supplier
  hook purges unconditionally and aborts the delete when the purge fails.
- **Controllers.** `Store.Store` is a class over four sequences (products, categories,
  suppliers, users) with an id counter. Each controller function is a method whose
  `ensures` gives the reply and the whole new state. The class invariant `Valid()` holds
  the unique indexes (ids, sku, category and supplier names), the required paths and
  the derived-status invariant. Every method preserves it.
- **Dashboard aggregation.** `Report` is pure. It covers the counts by status, the
  `reduce` fold of `price * quantity` proved equal to an independent sum, and the
  `$group` / `$lookup` / `$unwind` breakdowns as an inner join of reference counts
  against existing parents.
- **Access policy.** `Routes` is the route tables as middleware chains (`protect`, then
  optionally `authorize(roles...)`), evaluated by `Authorize` and proved equal to the
  policy stated in its own terms. `Server.Handle` runs the gate before the handler, and
  its contract ties each permitted request to `Server.Expected`, the controllers' effect
  on the store's contents written as one function.
- **Client filter.** `ProductsPage` has the page's four-way filter, the filter panel's
  reset, the stock buttons' guard and the status chip colour.
- **Scenarios.** `Scenarios` runs one product through create, update and category
  delete on a fresh store. Two small concrete runs are also proved: `Report.SupplierScenario` and
  `Scenarios.BeveragesScenario`.

Modelling conventions:

- Identifiers are `nat`, assigned from a counter.
- Quantities and thresholds are `int`. Prices are integer minor units.
- An absent request field is `None`.
- The clock is an input (`now`), and so are the outcome of a cascade purge (`purgeFails`)
  and the failure of the analytics aggregation (`fails`).

Behaviour of the code that a reader of the routes and models alone might not expect,
and that the model keeps:

- **`deleteSupplier` on an unknown id.** The supplier hook runs before the lookup, so
  products that reference the unknown id are purged all the same, and the reply is 404
  (`Store.Store.DeleteSupplier`, `Server.RefusalsChangeNothing`).
- **Status with a negative threshold.** A product is Out of Stock whenever
  `quantity <= 0`. This holds even when `quantity` is above a negative threshold, because
  the `quantity <= 0` test comes first.
- **The sku can change.** `updateProduct` merges the whole body with `Object.assign`, so a
  body that carries a new sku changes it; the unique index still rejects a sku another
  product has (`ProductModel.Assign`, `Store.Store.UpdateProduct`).
- **References are not checked.** Neither create nor update checks that the referenced
  category or supplier exists, so the store invariant allows dangling references
  (`Store.Store.Valid`). A listing shows such a reference as null, and the reports drop
  it (`Report.JoinSpec`).
- **Self-delete and self-demote.** These guards exist only in the client. The server's
  `deleteUser` and `updateUserRole` do not check them, and the model does not claim they do.

## Model

| member | source | states |
|---|---|---|
| ProductModel.DeriveStatusCases | server/models/product.model.js:29-37 | Out of Stock iff quantity ≤ 0; Low Stock iff 0 < quantity ≤ threshold; In Stock iff quantity > 0 and quantity > threshold; so exactly one status applies |
| ProductModel.ThresholdIsLowStock | server/models/product.model.js:32-33 | a quantity equal to a positive threshold is Low Stock (the boundary is inclusive) |
| ProductModel.DeriveStatusMonotone | server/models/product.model.js:30-36 | for a fixed threshold, more stock never gives a worse status under Out < Low < In |
| ProductModel.SavedSpec | server/models/product.model.js:29-37 | after save the status is consistent; a status the caller set is overwritten; no other field changes; saving twice equals saving once |
| ProductModel.DefaultsSaveOutOfStock | server/models/product.model.js:17-31 | a product created without quantity and threshold gets threshold 10 and saves as Out of Stock, whatever status was asked for |
| ProductModel.AssignThenSave | server/controllers/product.controller.js:44-45 | the merged and saved product keeps id and creation time, takes every field the body gives, keeps every other one, and has its status derived from the resulting quantity and threshold |
| ProductModel.EmptyAssignIsIdentity | server/controllers/product.controller.js:44-45 | an empty body leaves a stored, consistent product unchanged |
| Entities.ParseStatus | server/models/product.model.js:20-24 | the enum validator accepts exactly the three status strings, each back to its status |
| Entities.StatusNameRoundTrip | server/models/product.model.js:20-24 | every status's string parses back to it, and distinct statuses have distinct strings |
| Entities.CategoryRef | server/controllers/product.controller.js:13 | a populated category reference carries the id and the name of the first category with that id; it is null exactly when none exists |
| Entities.SupplierRef | server/controllers/product.controller.js:14 | a populated supplier reference carries the id and the name of the first supplier with that id; it is null exactly when none exists |
| Entities.OrdersAreTotal | server/controllers/category.controller.js:6 | the sort orders (createdAt descending on products, categories and users; name ascending on suppliers) are total, so sorting under them is well defined |
| References.CategoryPurgeSpec | server/models/category.model.js:11-16 | after the purge no product references the category; every other product is kept, in order; exactly the linked products are removed; with none linked nothing changes; a second purge finds nothing more |
| References.SupplierPurgeSpec | server/models/supplier.model.js:15-23 | after the purge no product references the supplier; every other product is kept, in order; exactly the linked products are removed; with none linked nothing changes; a second purge finds nothing more |
| References.CategoryPartition | server/models/category.model.js:14 | the products of a category and the products remaining after its purge together account for every product |
| References.SupplierPartition | server/models/supplier.model.js:18 | the products of a supplier and the products remaining after its purge together account for every product |
| Store.FindProductsSpec | server/controllers/product.controller.js:5-10 | a product is listed iff it is stored and meets every given parameter: name contains the search text ignoring case (sku is not searched), category equal, status equal; absent or empty parameters impose nothing |
| Store.NoParametersFindAll | server/controllers/product.controller.js:5-12 | with no parameters every product is listed |
| Store.Store.GetProducts | server/controllers/product.controller.js:3-21 | the result is a permutation of the matching products, sorted newest first, each with its references populated |
| Store.Store.CreateProduct | server/controllers/product.controller.js:23-37 | an invalid body (missing name, sku, category, supplier or price, or a status outside the enum) or a taken sku goes to the error handler and stores nothing; otherwise the product is appended with the next id and its derived status, and answered 201 populated; the invariant is kept |
| Store.Store.UpdateProduct | server/controllers/product.controller.js:39-50 | an unknown id is 404 with nothing changed; a merge that fails validation or takes another product's sku is 400 with nothing changed; otherwise only that product is replaced by the merged, saved document |
| Store.Store.DeleteProduct | server/controllers/product.controller.js:52-59 | always 200; exactly the product with that id, if any, is removed; nothing else changes |
| Store.Store.CategoryDeleteHook | server/models/category.model.js:11-16 | when the category exists, its products are purged, or the delete is rejected if the purge fails; when it does not exist nothing is purged |
| Store.Store.GetCategories | server/controllers/category.controller.js:4-11 | every category, as a permutation sorted newest first |
| Store.Store.CreateCategory | server/controllers/category.controller.js:14-21 | a missing, empty or taken name is 400 with nothing stored; otherwise the category is appended with the next id and answered 201 |
| Store.Store.UpdateCategory | server/controllers/category.controller.js:24-41 | an empty name is 400 first; then an unknown id is 404; then a name another category has is 400; otherwise only that category's name and description change, each only when given |
| Store.Store.DeleteCategory | server/controllers/category.controller.js:44-57 | an unknown id is 404 and deletes nothing; a failing purge is 500 and deletes nothing; otherwise the category and all its products are gone and nothing else changes |
| Store.Store.SupplierDeleteHook | server/models/supplier.model.js:15-23 | the supplier's products are purged whether or not the supplier exists; a failing purge rejects the delete and changes nothing |
| Store.Store.GetSuppliers | server/controllers/supplier.controller.js:3-10 | every supplier, as a permutation sorted by name ascending |
| Store.Store.CreateSupplier | server/controllers/supplier.controller.js:12-20 | a missing name or email, or a taken name, is 400 with nothing stored; otherwise the supplier is appended with the next id and answered 201 |
| Store.Store.DeleteSupplier | server/controllers/supplier.controller.js:22-32 | a failing purge is 500 and nothing changes; otherwise the supplier's products are gone, then an unknown id is 404 and a known one removes the supplier too |
| Store.Store.GetUsers | server/controllers/user.controller.js:4-13 | every user without the password, as a permutation sorted newest first |
| Store.Store.UpdateUserRole | server/controllers/user.controller.js:16-30 | an unknown id is 404 with nothing changed; otherwise only that user's role changes (when given) and the user is answered without the password |
| Store.Store.DeleteUser | server/controllers/user.controller.js:33-41 | an unknown id is 404 with nothing changed; otherwise exactly that user is removed |
| Report.StatusCountsPartition | server/services/report.service.js:5-9 | the three status counts add up to the number of products, so low plus out of stock never exceeds the total |
| Report.StatusCountsFollowQuantities | server/services/report.service.js:6-9 | on products saved by the hook, the low-stock count is the number in the band (0, threshold] and the out-of-stock count the number with quantity ≤ 0 |
| Report.ValueFoldIsSum | server/services/report.service.js:13-16 | the `reduce` fold from any accumulator is that accumulator plus the independent sum of price times quantity |
| Report.TotalValueSpec | server/services/report.service.js:12-16 | the total value is the sum of price times quantity, 0 for no products, and additive over any split of the list |
| Report.GroupRefsSpec | server/services/report.service.js:20 | the grouping has one group per distinct reference, with distinct keys, each counting that reference's occurrences, and the counts sum to the number of references |
| Report.JoinSpec | server/services/report.service.js:21-30 | the join keeps exactly the groups whose parent exists, with the parent's name and the group's count; its sum is at most the groups' sum, equal when every parent exists |
| Report.BreakdownSpec | server/services/report.service.js:19-31 | one entry per distinct reference with an existing parent and no other; each with the parent's name and the reference's occurrence count; the sum is at most the number of references, equal when none dangles |
| Report.CategoryRefsCount | server/services/report.service.js:19-20 | a category id's occurrences among the products' references are its linked products |
| Report.SupplierRefsCount | server/services/report.service.js:34-35 | a supplier id's occurrences among the products' references are its linked products |
| Report.CategoryStatsSpec | server/services/report.service.js:19-31 | categoryStats has an entry exactly for each category that exists and has products, with its name and product count; empty categories and dangling references contribute nothing; the sum is at most the product count, equal when no category reference dangles |
| Report.SupplierStatsSpec | server/services/report.service.js:34-46 | supplierStats has an entry exactly for each supplier that exists and has products, with its name and product count; the sum is at most the product count, equal when no supplier reference dangles |
| Report.DashboardStatsSpec | server/services/report.service.js:3-56 | totalProducts is the product count; low plus out of stock is at most it; totalValue is the independent sum (0 and empty breakdowns for no products); both breakdown sums are at most the product count; on saved products the counts are the quantity bands |
| Report.SupplierScenario | server/services/report.service.js:12-46 | two products of supplier A (10×2, 5×4) and one of B give supplierStats {A: 2, B: 1} and totalValue 40 |
| Report.GetAnalytics | server/controllers/report.controller.js:4-35 | a failing aggregation is 500; otherwise 200 with one entry per existing category that has products, each counting them, with distinct ids and a sum of at most the product count |
| Routes.RunChainSpec | server/routes/product.route.js:11-18 | a chain reaches the handler iff every step admits the request; a 401 comes only from `protect` without identity, a 403 only from an `authorize` step |
| Routes.AuthorizeSpec | server/routes/product.route.js:11-18 | on every registered route: signup and login admit anyone; every other route answers 401 without identity, before any role check; an identity is admitted iff its role is allowed (Admin everything; Staff reads products, categories and suppliers, creates and updates products, changes its password) and is refused 403 otherwise |
| Routes.AdminReachesEveryRoute | server/routes/category.route.js:13-18 | Admin is admitted on every registered route |
| Routes.ProductRoutePolicy | server/routes/product.route.js:11-18 | every product route needs a token; any role lists, creates and updates; only Admin deletes and Staff is refused 403 |
| Routes.CategoryRoutePolicy | server/routes/category.route.js:13-18 | every category route needs a token; any role lists; create, update and delete admit exactly Admin and refuse Staff 403 |
| Routes.SupplierRoutePolicy | server/routes/supplier.route.js:10-12 | no update route is registered; every supplier route needs a token; any role lists; create and delete admit Admin and refuse Staff |
| Routes.UserRoutePolicy | server/routes/user.route.js:11-13 | every user-management route needs a token, admits Admin and refuses Staff 403 |
| Routes.AuthRoutePolicy | server/routes/auth.route.js:10-15 | signup and login are public; changing a password needs a token and no role; register needs a token and Admin, Staff is refused 403 |
| Server.EveryRequestIsRouted | server/routes/product.route.js:11-18 | every modelled request names a registered route, so the gate never answers "no route" |
| Server.Handle | server/routes/product.route.js:11-18 | a request the gate refuses gets the gate's decision and leaves the store unchanged; a permitted read answers 200 and leaves it unchanged; a permitted request for a modelled controller answers that controller's code and leaves exactly the contents `Server.Expected` gives for it (new document, merged update, purge and removal, role change), keeping the store invariant |
| Server.RefusalsChangeNothing | server/controllers/supplier.controller.js:22-31 | a request a controller refuses leaves the store as it was, except a supplier delete on an unknown id, whose 404 comes after the purge; only a 201 advances the id counter |
| Server.DeletesCascade | server/controllers/category.controller.js:44-56 | after a successful category delete, or a supplier delete whose purge succeeded, no product references the deleted id and every other product is kept |
| Server.StaffRefusals | server/routes/category.route.js:16-18 | Staff is refused 403 on product delete, every category and supplier mutation, every user route and register (so those handlers never run for Staff) |
| Server.AnonymousRefusals | server/routes/auth.route.js:10-15 | without identity exactly signup and login get through; every other request is refused 401 |
| Scenarios.BeveragesScenario | server/controllers/category.controller.js:44-57 | on a fresh store: Cola (5 units, threshold 10) is created Low Stock under Beverages, becomes Out of Stock when its quantity is set to 0, and is not found once Beverages is deleted |
| ProductsPage.FilteredProductsSpec | client/src/pages/Products.jsx:83-98 | the filtered list is an order-preserving subsequence of the loaded products, and a listing is in it iff it passes all four tests (search, category, supplier, status) |
| ProductsPage.NeutralChoices | client/src/pages/Products.jsx:84-95 | an empty search matches every listing; "All" on category, supplier or status removes exactly that test |
| ProductsPage.ClearedKeepsAll | client/src/pages/Products.jsx:100-104 | with the filters cleared the filtered list is the whole loaded list |
| ProductsPage.FilterPanel.Reset | client/src/pages/Products.jsx:100-106 | after a reset the panel is in the cleared state (empty search, "All" everywhere) |
| ProductsPage.FilterPanel.constructor | client/src/pages/Products.jsx:43-46 | the panel starts in the cleared state |
| ProductsPage.AdjustStock | client/src/pages/Products.jsx:133-143 | a new quantity below zero only warns; otherwise an update is sent for that product carrying only the new, non-negative quantity |
| ProductsPage.AdjustThenUpdate | client/src/pages/Products.jsx:133-138 | a sent adjustment, merged and saved on the server, moves the quantity by the amount, re-derives the status, keeps every other field, and gives Out of Stock exactly when the result is 0 |
| ProductsPage.StatusColor | client/src/pages/Products.jsx:187-191 | success exactly for "In Stock", warning exactly for "Low Stock", error for every other string including all non-enum ones |
| ProductsPage.StatusColorOfSaved | client/src/pages/Products.jsx:187-191 | the chip of a saved product is error iff quantity ≤ 0, warning iff 0 < quantity ≤ threshold, success iff quantity is above both |

## Left out

- Store.Store.GetProducts: `$regex` with the `i` option is modelled as a case-insensitive substring test, so regular-expression metacharacters in the search text are taken literally.
- Text.Lower: lower-cases ASCII letters only. JavaScript's `toLowerCase` and MongoDB's case folding cover all of Unicode.
- Report.DashboardStatsSpec: `totalValue` is an exact integer over minor units. The JavaScript sum is a floating-point number formatted with `toFixed(2)`, and that formatting is not modelled.
- Report.GetDashboardStats: the order of the `$group` output is unspecified in the store. The model fixes one order, and every stated property is order-free (membership, counts, sums).
- Store.Store.CreateProduct: a failed create goes to the framework's error handler, whose response is not modelled (`Forwarded`, no status code).
- Values that fail a cast are not modelled, because the model's inputs are already typed. This covers an id that is not an ObjectId and a non-numeric price or quantity, which the store rejects with a cast error.
- Store.Store.UpdateUserRole: the role comes in as an optional `Role`. The user model's enum validation of an unknown role string is not modelled; the user model is not part of this model.
- Store failures other than the cascade purge and the analytics aggregation are not modelled. These are the 500 replies of the list, delete and update controllers when the database itself fails.
- A failing `deleteMany` in a hook is modelled as deleting nothing. A partial purge cannot happen in the model.
- Concurrency is not modelled: requests run one at a time. There is no race between the purge and the parent delete, and no multi-document transaction.
- An explicit `null` in a request body is not distinguished from an absent field.
- The `updatedAt` timestamps are left out. `createdAt` is kept because the listings sort by it.
- The product delete route's inline handler refers to a `Product` binding its file never imports, and some controllers mix `require` with `export`. The model runs the controller's `deleteProduct` and ignores these module-loading defects.
- The report route has a single protect-only route, wired to `getAnalytics`. The route and the prefix mounting in the route index are not modelled.
- Authentication internals are not modelled: token verification, password hashing, the auth controller and the auth middleware. `protect` supplies an optional role. The auth middleware and the user model are not part of this model, so `authorize` is taken to refuse with 403 a role it does not list. Requests for signup, login, password change and register are passed on without being modelled (`Server.Outcome.Delegated`).
- The client's rendering, its local auth state, the HTTP client interceptors, and the toast messages of `adjustStock` and `handleResetFilters` are not modelled. `AdjustStock` returns the action instead of issuing the request.
