# Order placement and order lifecycle of a clothes-shop backend

This project models the core of an Express/Mongoose shop backend in Dafny and proves
properties of that model:

- **Placing an order.** The order schema's validation and defaults come first. Then the
  save hooks run in the order they are declared:
  - the PayPal guard;
  - pricing: subtotal plus shipping, less a voucher that must lie in its date window,
    floored at 0;
  - the stock hook: a check phase against the stock before the order, then an update
    phase that lowers each line's stock and raises its sold count.

  The hook and the controller are modelled twice: once as written
  (`Inventory.ReserveAsWritten`, `OrderController.CreateBodyAsWritten`), and once
  corrected (`Inventory.Reserve`, `OrderController.CreateBody`). The corrected hook
  checks each line against the stock the earlier lines left. The corrected body forces
  the status to new. Placing an order (`OrderController.PlaceOrder`,
  `OrderController.OrderLedger.CreateNewOrder`, `Inventory.Catalog.ReserveStock`)
  uses the corrected versions. "## Findings" below gives the inputs on which the two
  versions differ.
- **The order transitions** (accept, cancel, complete) and a ledger of stored orders.
- **Product, inventory and voucher documents.** This covers their validators and
  defaults, the sku upper-casing and unique index, the description hook, and the
  `isShow` filter of every find query.
- **The admin stock merge** of `updateProductInventory`, as a nested loop over an array.
- **The profile handlers**:
  - `filterObj`;
  - `updateMe`, which refuses password fields, whitelists profile fields and computes
    the public id of an old photo;
  - the address-book append, delete and patch operations.
- **The query builder `APIFeatures`**:
  - `filter`: excluded keys, the `gte|gt|lte|lt` operator rewrite, the case-insensitive
    search fields, and the `category=all` removal;
  - `sort` and `limitFields`: commas become spaces;
  - `paginate`: its skip arithmetic;
  - `escapeRegex`.
- **The role test of `restrictTo`.** The actor's role is an input of the transitions.

Modules follow the source files:

| module | source file |
|---|---|
| `Common` | shared `Option`/`Result` and JavaScript truthiness of strings |
| `ProductModel` | `models/productModel.js` |
| `VoucherModel` | `models/voucherModel.js` |
| `OrderModel` | schema, PayPal hook and pricing hook of `models/orderModel.js` |
| `Inventory` | stock hook of `models/orderModel.js` |
| `OrderController` | `controllers/orderController.js` |
| `ProductController` | `controllers/productController.js` |
| `UserController` | `controllers/userController.js` |
| `ApiFeatures` | `utils/apiFeatures.js` |
| `AuthController` | `restrictTo` of `controllers/authController.js` |

Modelling choices:

- Databases are maps from ids to documents. Dates are integer timestamps, and "now" is
  a parameter.
- A missing optional field is `None`. A missing required string is `""`, which
  Mongoose's `required` validator refuses.
- A hook or validator that calls `next(err)` becomes a function that returns `Err`. The
  first error reported wins.
- The stock hook dereferences `undefined` when a product or size is missing. The model
  reports that case as an explicit `ProductNotFound` / `SizeNotFound` error.
- `deleteOrder` and `completeOrder` read `orderStatus` of the result of `findById`.
  For an unknown id that result is null, so the handler fails with a TypeError
  (a server error). `OrderController.CancelIn` and `OrderController.CompleteIn`
  report `OrderNotFound` there instead. In both versions the order collection is
  unchanged.
- Stateful parts are classes with `modifies` clauses, each proved against these
  functions:
  - the product catalog the stock hook writes (`Inventory.Catalog`);
  - the order collection (`OrderController.OrderLedger`);
  - a user's address book (`UserController.UserAccount`);
  - the query builder (`ApiFeatures.Features`).
- The lookup and counter arithmetic of the stock hook are specification functions.
- The products' parent category defaults to `Khác`, which is outside the
  `pants|shirts|none` enumeration. A product created without a parent category is
  therefore refused (`ProductModel.MissingParentCategoryRejected`).
- The voucher's `name` option is spelled `require`, so a nameless voucher is accepted.
  Only the unique index applies to the name.

## Model

| member | source | states |
|---|---|---|
| ProductModel.ToUpper | models/productModel.js:10-15 | the sku setter keeps the length, yields no lower-case ASCII letter, and upper-cases each character independently |
| ProductModel.ToUpperIdempotent | models/productModel.js:14 | upper-casing a stored sku again changes nothing |
| ProductModel.EntriesWithDefaults | models/productModel.js:39-57 | each inventory entry keeps its size and takes stock 0 and soldAmount 0 when they are missing |
| ProductModel.DescriptionHook | models/productModel.js:114-119 | the description hook replaces exactly the empty description by the fixed notice, and the result is never empty |
| ProductModel.SaveProduct | models/productModel.js:4-81 | a new product is accepted exactly when every required field is present, the discount lies in 0..90, every stock and sold count is non-negative, and the parent category (default `Khác`) is in its enum; the stored product is valid, its sku is upper-cased, discount defaults to 0 and isShow to true, and its name, price, description (default text when missing), color, cover image, parent category (default `Khác`) and category are the request's |
| ProductModel.EmptyDescriptionRejected | models/productModel.js:16-20 | an explicitly empty description fails the required validator before the hook could replace it |
| ProductModel.MissingDescriptionDefaults | models/productModel.js:16-20 | a missing description is stored as the default text |
| ProductModel.MissingParentCategoryRejected | models/productModel.js:64-69 | a product without a parent category fails validation, because the default is outside the enum |
| ProductModel.InsertProduct | models/productModel.js:12 | the unique index refuses a product exactly when another stored product has its sku |
| ProductModel.InsertKeepsSkusUnique | models/productModel.js:12 | every accepted insertion keeps skus unique |
| ProductModel.SkuCaseCollides | models/productModel.js:12-14 | skus that differ only in letter case collide, because upper-casing happens before the index sees the sku |
| ProductModel.FindById | models/productModel.js:130-135 | a find returns the stored product exactly when it exists and isShow is true |
| VoucherModel.NewVoucher | models/voucherModel.js:3-20 | a voucher is accepted exactly when its discount (default 0) is non-negative; isActive defaults to true; name and dates are optional and unconstrained |
| VoucherModel.Insert | models/voucherModel.js:7 | the unique index refuses a voucher exactly when its name is taken; otherwise only the new id is added |
| VoucherModel.InsertPreservesValid | models/voucherModel.js:7-15 | an accepted insertion keeps names unique and discounts non-negative |
| OrderModel.ParseStatus | models/orderModel.js:41-49 | orderStatus is accepted exactly for new, processing, done and fail, and each of these strings maps to its own status |
| OrderModel.ParsePaymentMethod | models/orderModel.js:50-57 | paymentMethod is accepted exactly for COD and PayPal |
| OrderModel.PayPalGuardPasses | models/orderModel.js:107-112 | the first save hook passes unless the order is PayPal and its payment result has no truthy id (a predicate; `OrderController.PayPalHookRedundant` relates it to the controller's guard) |
| OrderModel.ValidateOrder | models/orderModel.js:7-99 | an order document validates exactly when every line has a product, price and size and a quantity (default 1) of at least 1, the shipping price is given, the status (default new) and payment method are in their enums, and the user and all six address fields are present; the result is a valid order whose lines carry the request's product, size, price and quantity, whose shipping price, user, payment result, voucher and address are the request's, whose payment method and status are the enum values named, and whose total starts at 0 |
| OrderModel.SubtotalAppend | models/orderModel.js:114-117 | the reduce sum of a concatenation of lines is the sum of the parts |
| OrderModel.Subtotal | models/orderModel.js:114-117 | the `reduce` from 0, line by line from the left, adding price times quantity (a definition; its laws are `SubtotalAppend`, `SubtotalSingle` and `SubtotalNonNegative`) |
| OrderModel.SubtotalSingle | models/orderModel.js:115 | one line contributes price times quantity |
| OrderModel.SubtotalNonNegative | models/orderModel.js:114-117 | with non-negative prices and quantities the subtotal is non-negative |
| OrderModel.ShippingOrZero | models/orderModel.js:119 | a missing shipping price counts as 0 |
| OrderModel.Price | models/orderModel.js:113-142 | without a voucher the total is subtotal plus shipping; an unknown voucher gives not-found, an expired one gives expired (checked first), one starting later gives not-active; otherwise the total is max(0, subtotal + shipping - discount) |
| OrderModel.VoucherAcceptedIff | models/orderModel.js:129-135 | a known voucher is accepted exactly when now lies between its start and expiry (missing ends do not count) |
| OrderModel.VoucherNeverRaisesPrice | models/orderModel.js:137 | a non-negative discount never raises a non-negative price |
| OrderModel.PriceIgnoresIsActive | models/orderModel.js:121-138 | the pricing hook's outcome does not depend on the voucher's isActive flag |
| Inventory.FindSize | models/orderModel.js:160-162 | the index found is that of the first inventory entry of the size; no index means no entry of that size |
| Inventory.EntryFor | models/orderModel.js:156-162 | a line's counter exists exactly when its product is visible and has an entry of that size, and it is the first entry of that size |
| Inventory.CheckLine | models/orderModel.js:155-168 | one line passes exactly when its counter exists and holds at least its quantity; a missing product, a missing size and a short stock each give their own error |
| Inventory.RewriteSize | models/orderModel.js:192-198 | the map over the inventory keeps length and sizes, leaves other sizes unchanged, and writes the new stock and sold count to every entry of the size |
| Inventory.ApplyLine | models/orderModel.js:173-207 | one update step keeps the catalog's product ids; `ApplyLineShape` and `ApplyLineEntry` state what it changes |
| Inventory.ApplyAll | models/orderModel.js:171-210 | the update phase applies every line in order and keeps the catalog's product ids |
| Inventory.ReserveAsWritten | models/orderModel.js:144-212 | the stock hook as written writes exactly when every line passes its check against the stock before the order; otherwise it reports the first failing line's error; `AsWrittenCounters` states what it writes |
| Inventory.ApplyAllCounters | models/orderModel.js:171-210 | when every line's counter exists, the update phase shifts each counter by the total quantity the lines order of it |
| Inventory.AsWrittenCounters | models/orderModel.js:155-210 | on success the hook as written lowers each counter's stock by the total quantity ordered of it, possibly below zero, and raises its sold count by the same amount |
| Inventory.Reserve | models/orderModel.js:155-210 | the corrected stock hook, which checks each line against the stock the earlier lines left, keeps the catalog's product ids on success; `ReserveSucceedsIff`, `ReserveCounters` and `ReserveIffTotalsFit` state its behaviour |
| Inventory.CheckAll | models/orderModel.js:155-168 | the check phase passes exactly when every line passes, and otherwise reports the first failing line's error |
| Inventory.ApplyLineShape | models/orderModel.js:173-207 | one update step keeps the catalog's products, every field but the inventory, the inventory's length and sizes, and every entry of another product or size |
| Inventory.ApplyLineEntry | models/orderModel.js:186-198 | one update step shifts the line's own counter by its quantity (stock down, sold count up) and no other counter |
| Inventory.ApplyLineValid | models/productModel.js:45-55 | a line that passes its check keeps stock and sold counts non-negative |
| Inventory.ReserveCounters | models/orderModel.js:171-210 | after a successful reservation each counter has lost, from its stock, the total quantity the order asks of it, and has gained that amount in its sold count |
| Inventory.ReserveShape | models/orderModel.js:171-210 | a successful reservation changes only the inventory entries whose (product, size) some line names |
| Inventory.ReserveUntouchedProduct | models/orderModel.js:173-207 | a product no line names is left exactly as it was |
| Inventory.ReservePreservesValid | models/productModel.js:45-55 | the corrected reservation keeps every stock and sold count of a valid catalog non-negative |
| Inventory.ReserveSucceedsIff | models/orderModel.js:155-171 | the corrected reservation succeeds exactly when each line's counter exists and holds the quantity of that line plus the earlier lines for the same counter |
| Inventory.ReserveRejectsShortLine | models/orderModel.js:164-171 | a line whose counter is missing or too small makes the reservation fail, so nothing is written |
| Inventory.ReserveIffTotalsFit | models/orderModel.js:155-210 | on a valid catalog the corrected reservation succeeds exactly when every counter's total ordered quantity is at most its stock |
| Inventory.AsWrittenRejectsShortLine | models/orderModel.js:164-171 | the hook as written also writes nothing when a line exceeds the stock before the order |
| Inventory.AsWrittenAgreesOnDistinctPairs | models/orderModel.js:155-210 | when no two lines share a (product, size), the hook as written equals the corrected one |
| Inventory.OverdrawAsWritten | models/orderModel.js:164 | two lines of 3 for one size with stock 5 each pass the check as written and leave stock -1; the corrected hook refuses them |
| Inventory.ReserveHead | models/orderModel.js:173-209 | the corrected reservation handles the first line, then the rest against the updated catalog |
| Inventory.Catalog.ReserveStock | models/orderModel.js:144-212 | the stock hook writes the corrected reservation's catalog on success; on failure it writes nothing and reports that error; a valid catalog stays valid |
| Inventory.ReserveLine | models/orderModel.js:176-207 | one line of the hook returns its check's error, or the catalog with that line applied |
| Inventory.RewriteEntries | models/orderModel.js:192-198 | the loop builds exactly the rewritten inventory |
| OrderController.Accept | controllers/orderController.js:142-146 | an admin's accept sets processing whatever the status was, and changes nothing else; anyone else is refused |
| OrderController.Cancel | controllers/orderController.js:148-173 | a terminal order is refused as already finalized; otherwise a caller with role user gets the not-after-new refusal for an order that is not new, then the not-owner refusal for a new order of someone else; otherwise the status becomes fail and nothing else changes |
| OrderController.Complete | controllers/orderController.js:175-195 | an admin completes exactly the non-terminal orders whose payment is not blocked (non-COD with status exactly false); a terminal order is refused as already finalized, then a blocked payment as not confirmed; on success the status becomes done and paymentResult is replaced as a whole by status true at now |
| OrderController.TransitionsPreserveValid | controllers/orderController.js:143-195 | all three transitions keep a valid order valid, and any order they write that is done has payment status true |
| OrderController.AcceptReopensTerminal | controllers/orderController.js:143-146 | accept moves a done or failed order back to processing, after which a COD order can be completed again |
| OrderController.CompleteFromNew | controllers/orderController.js:176-195 | completing does not require processing: a new order can be completed directly |
| OrderController.MissingPayPalId | controllers/orderController.js:199-201 | the controller's guard: the method is PayPal and the body's payment result has no truthy id (a predicate; `PlaceOrder` refuses exactly these first) |
| OrderController.CreateBodyAsWritten | controllers/orderController.js:203-207 | as written, the document is the body with the caller as owner and nothing else changed, so the body's orderStatus is kept |
| OrderController.RequestedStatusSurvivesAsWritten | controllers/orderController.js:204-208 | as written, a body that asks for orderStatus done creates a done order |
| OrderController.CreateBody | controllers/orderController.js:204-208 | the corrected document has the caller as owner and status new, and otherwise the request's lines, payment and voucher |
| OrderController.PlaceOrder | controllers/orderController.js:197-208 | placement with the corrected body (status new) and the corrected stock hook: the payment-required error is reported exactly for a PayPal body without a payment id; a request that validates, prices and reserves is placed; a placed order is valid, owned by the caller, new, has the request's lines, shipping price, payment method, payment result, voucher and address, is priced by the pricing hook, and its catalog is the corrected reservation's; an invalid, pricing or stock error is the error of that stage |
| OrderController.PayPalHookRedundant | models/orderModel.js:107-112 | every validated order that passed the controller's guard passes the PayPal save hook |
| OrderController.VoucherErrorBeforeStock | models/orderModel.js:113-144 | a voucher error is reported before the stock hook runs |
| OrderController.PlacedTotal | models/orderModel.js:114-140 | a placed order's total is subtotal plus shipping, less the voucher's discount floored at 0 |
| OrderController.PlacedKeepsCatalogValid | models/orderModel.js:144-212 | placing an order keeps every stock and sold count non-negative |
| OrderController.AcceptIn | controllers/orderController.js:143-146 | a non-admin caller is refused before the lookup; for an admin, an unknown id is not found and a stored order gets Accept |
| OrderController.CancelIn | controllers/orderController.js:148-149 | cancelling an unknown id is not found; a stored order gets Cancel |
| OrderController.CompleteIn | controllers/orderController.js:176-177 | a non-admin caller is refused before the lookup; for an admin, an unknown id is not found and a stored order gets Complete |
| OrderController.OrderLedger.CreateNewOrder | controllers/orderController.js:197-214 | with the corrected body and stock hook: on success the order is stored under a fresh id and the catalog holds the reserved stock; on any error neither changes; every stored order stays valid, and a done one stays paid |
| OrderController.OrderLedger.AcceptOrder | controllers/orderController.js:143-146 | only the accepted order is rewritten, and the ledger stays valid |
| OrderController.OrderLedger.CancelOrder | controllers/orderController.js:148-173 | only the cancelled order is rewritten, and the ledger stays valid |
| OrderController.OrderLedger.CompleteOrder | controllers/orderController.js:176-195 | only the completed order is rewritten, and the ledger stays valid |
| ProductController.LastStockFor | controllers/productController.js:94-97 | the stock found is that of the last requested entry of the size; none means the size is not requested |
| ProductController.MergedInventory | controllers/productController.js:93-100 | the merge keeps the inventory's length, sizes and sold counts |
| ProductController.MergeLastWins | controllers/productController.js:94-97 | among several requested entries of one size, the last one's stock wins |
| ProductController.MergeAbsentUnchanged | controllers/productController.js:93-100 | a stored entry whose size is not requested is unchanged |
| ProductController.MergeIgnoresUnknownSize | controllers/productController.js:93-100 | a requested size that the stored inventory lacks is neither added nor applied |
| ProductController.MergeKeepsValid | controllers/productController.js:93-100 | with non-negative requested stocks the merged inventory stays valid |
| ProductController.MergeStock | controllers/productController.js:93-100 | the nested loop leaves the array equal to the merged inventory |
| ProductController.UpdateProductInventory | controllers/productController.js:85-103 | without a requested inventory the request passes through; a missing or hidden product is an error; otherwise the merged inventory is handed on |
| UserController.FilterObj | controllers/userController.js:19-25 | the result holds exactly the allowed keys of obj, with their values |
| UserController.PublicId | controllers/userController.js:36 | the last '/'-segment of the URL up to its first '.' (a definition; `PublicIdChars` and `PublicIdWithin` state its properties) |
| UserController.UpdateMe | controllers/userController.js:27-40 | a truthy password or passwordConfirm is refused; otherwise only firstName, lastName and email pass, plus the uploaded photo; an old media-store photo is scheduled for destruction under its public id |
| UserController.PublicIdChars | controllers/userController.js:36 | the public id holds neither '/' nor '.' |
| UserController.PublicIdWithin | controllers/userController.js:36 | the URL is a prefix ending in its last '/', then the public id, then nothing or a '.'-tail without '/' |
| UserController.WithoutId | controllers/userController.js:135-137 | deleting keeps exactly the addresses with another id |
| UserController.WithoutIdAppend | controllers/userController.js:135-137 | the delete filter keeps the remaining addresses in their order |
| UserController.WithoutIdAbsent | controllers/userController.js:135-137 | deleting an id that no address has changes nothing |
| UserController.Patched | controllers/userController.js:151-158 | a patched address keeps its id, and each of the six fields takes the given value when it is truthy and keeps its old value otherwise |
| UserController.PatchedLaws | controllers/userController.js:152-157 | an empty patch changes nothing, and patching twice is patching once |
| UserController.UserAccount.CreateAddress | controllers/userController.js:120-130 | the new address goes at the end of the book |
| UserController.UserAccount.DeleteAddress | controllers/userController.js:131-145 | the book loses exactly the addresses with the id |
| UserController.UserAccount.UpdateAddresses | controllers/userController.js:147-169 | the book keeps its length; each address with the id is patched field by field (truthy values win) and the others are unchanged |
| ApiFeatures.EscapeChar | utils/apiFeatures.js:71-73 | a character is preceded by a backslash exactly when it is one of the regular-expression specials |
| ApiFeatures.EscapeRegex | utils/apiFeatures.js:71-73 | the `replace` that puts a backslash before every special character (a definition; `EscapeChar`, `EscapeAppend`, `EscapeLength` and `EscapeRoundTrip` state its properties) |
| ApiFeatures.EscapeAppend | utils/apiFeatures.js:72 | escaping works character by character over concatenation |
| ApiFeatures.EscapeLength | utils/apiFeatures.js:72 | the escaped length is the input length plus the number of special characters |
| ApiFeatures.EscapeRoundTrip | utils/apiFeatures.js:71-73 | reading the escaped pattern back as a literal gives the input |
| ApiFeatures.WordRun | utils/apiFeatures.js:15 | the word run at the head of a string is maximal, as the `\b` boundary requires |
| ApiFeatures.RewriteOps | utils/apiFeatures.js:15 | the replace that puts `$` before every whole word gte, gt, lte or lt of one string (a definition; `RewriteHead`, `RewritePlainWord` and `RewriteRoundTrip` state its properties) |
| ApiFeatures.RewriteHead | utils/apiFeatures.js:15 | the rewrite keeps a leading non-word character, and its result never starts with a bare operator word |
| ApiFeatures.RewritePlainWord | utils/apiFeatures.js:15 | a word other than gte, gt, lte and lt is left as it is |
| ApiFeatures.RewriteRoundTrip | utils/apiFeatures.js:14-17 | the `$`-prefixing of operator words can be undone, so the rewrite loses no information |
| ApiFeatures.ConditionsShape | utils/apiFeatures.js:7-39 | the filter keeps every query parameter except page, sort, limit and fields (and category=all), each rewritten and, for a searched field, wrapped |
| ApiFeatures.CategoryAll | utils/apiFeatures.js:35-37 | a category parameter is dropped exactly when its value is all |
| ApiFeatures.FilterConditions | utils/apiFeatures.js:7-39 | the corrected filter's keys and the condition each parameter becomes, with email searched like name, sku and color |
| ApiFeatures.FilterConditionsAsWritten | utils/apiFeatures.js:20-33 | as written, only name, sku and color become patterns; the keys are the same |
| ApiFeatures.FilterSearchLiteral | utils/apiFeatures.js:20-27 | a non-empty searched parameter becomes a case-insensitive pattern that matches its text literally; any other parameter is an equality |
| ApiFeatures.EmailExactAsWritten | utils/apiFeatures.js:28-33 | as written an email filter matches exactly; corrected, it is a case-insensitive pattern |
| ApiFeatures.ReplaceChar | utils/apiFeatures.js:45 | every comma becomes a space and all else is kept |
| ApiFeatures.Split | utils/apiFeatures.js:45 | `split(',')` yields at least one part; `SplitJoin` states that joining the parts with a space replaces each comma |
| ApiFeatures.SplitJoin | utils/apiFeatures.js:45 | split at commas and joined with spaces is replacing each comma by a space |
| ApiFeatures.SpaceList | utils/apiFeatures.js:43-61 | a truthy sort or fields parameter has its commas turned into spaces; otherwise the default is used |
| ApiFeatures.DecimalValue | utils/apiFeatures.js:64-65 | `* 1` reads a decimal numeral back as its number |
| ApiFeatures.ToNumber | utils/apiFeatures.js:64-65 | `* 1` on a signed decimal numeral, with "" as 0 and anything else NaN (a definition; `DecimalValue` states that it reads numerals back) |
| ApiFeatures.NumberOr | utils/apiFeatures.js:64-65 | a missing, non-numeric or zero parameter falls back to the default |
| ApiFeatures.Window | utils/apiFeatures.js:63-69 | the limit defaults to 10; skip is (page - 1) times limit, with page defaulting to 1 |
| ApiFeatures.WindowDefaults | utils/apiFeatures.js:64-66 | without page and limit, the first ten documents are taken |
| ApiFeatures.WindowOfNumerals | utils/apiFeatures.js:64-66 | numeral page p and limit l skip (p - 1) * l and take l |
| ApiFeatures.PagesTile | utils/apiFeatures.js:66-67 | for a positive limit, document i lies in exactly one page window, that of page i / l + 1 |
| ApiFeatures.OmitFields | utils/apiFeatures.js:9-11 | deleting the excluded fields one by one leaves the query string without them |
| ApiFeatures.RewriteAndWrap | utils/apiFeatures.js:14-27 | the loop yields the rewritten parameters with each searched field wrapped |
| ApiFeatures.Features.Filter | utils/apiFeatures.js:7-41 | filter adds the corrected conditions to the query's |
| ApiFeatures.Features.Sort | utils/apiFeatures.js:43-51 | sort sets the requested order, newest first by default |
| ApiFeatures.Features.LimitFields | utils/apiFeatures.js:53-61 | limitFields sets the requested projection, `-__v` by default |
| ApiFeatures.Features.Paginate | utils/apiFeatures.js:63-69 | paginate sets skip and limit to the page window |
| AuthController.RestrictTo | controllers/authController.js:159-170 | the route guard admits the caller exactly when its role is one of the listed roles (a predicate; `Accept` and `Complete` refuse every non-admin with it) |

## Left out

- Prices, discounts and quantities are integers. JavaScript numbers are floats, and fractional or non-finite values are not modelled.
- Database access, `await`, and the atomicity of the stock hook's read-check-write across several `findOneAndUpdate` calls are not modelled. Each hook is one sequential step. Concurrent orders are out of scope.
- Mongoose hook mechanics: `next()` being called again after `next(err)` is modelled as "the first error wins and nothing is written".
- Request bodies of the transitions are not modelled. The handlers only set `orderStatus` (and `paymentResult`) on `req.body`. The generic update handler then writes the whole body onto the stored order (controllers/handlerFactory.js:15). So a caller who passes the guards can also rewrite other fields, such as `totalPrice`, in the same request. The model's transitions take no body, so their "nothing else changes" holds only for a body that carries no other fields.
- Express wiring and routes: routes are not part of this model. The admin-only guard of accept and complete is the caller's role, which is an input.
- The `restrictTo` middleware's 403 response is not modelled. Only its role-membership test is (`AuthController.RestrictTo`).
- Other parts of `models/productModel.js` are not modelled: the slug hook (it uses a slug library), `averageRate` (float rounding), `numberOfReview`, the populate hook, the `images` list, and the timing field set by the find hook.
- `ProductModel.ToUpper`: upper-casing covers ASCII letters only, not the full Unicode case mapping.
- Product and category ids are plain strings. The existence check on the referenced category is not modelled.
- `ProductController.UpdateProductInventory`: the `JSON.parse` of a string-typed inventory body is not modelled. The request arrives parsed.
- User handlers not modelled:
  - the media-store upload and destroy calls, and the `findByIdAndUpdate` write of `updateMe`;
  - the lock and unlock handlers, `getMe`, `getUser` and `getUserByEmail`.
- `getAllUsers` is not modelled, except through its use of `APIFeatures`.
- Fresh object ids and the current time are parameters of the operations that need them.
- `ApiFeatures.RewriteRoundTrip`: the rewrite is modelled on each parameter value, not on the JSON text of the whole object. JSON escapes of control characters are not modelled.
- `ApiFeatures.ConditionsShape`: parameter names are taken as they arrive. In the source the rewrite runs over the JSON text, so it also puts `$` before operator words in flat keys (`?lt=3` gives the key `$lt`, and `?price-gte=1` gives `price-$gte`). It does the same in nested `field[gte]` keys. The keys the model states are the query string's names, minus the excluded ones.
- `ApiFeatures.FilterConditions`: its keys are likewise the parameter names without the operator rewrite of keys.
- Nested or repeated query parameters are not modelled. The query string is a flat map from names to strings.
- `ApiFeatures.NumberOr`: `s * 1` is modelled for optionally signed decimal digit strings, with "" reading as 0. Whitespace, '+', fractions, exponents, hexadecimal and Infinity are read as not-a-number.
- `ApiFeatures.Features.Sort`: Mongoose's merging of repeated `sort`/`select` calls is not modelled. Each method sets its part of the query.
- `ApiFeatures.FilterConditions`: the Mongo regular-expression engine itself is not modelled. A pattern is the escaped text together with its options.
- `OrderController.OrderLedger.CreateNewOrder`: stored timestamps (`timestamps: true`) and the JSON response are not modelled.
- The order reporting queries and handlers are not modelled (`getAllOrders`, `getOrderStats`, `getAllOrdersByUser`, `bestSeller`, `getProductStats`). Neither are the generic handler factory and the category and voucher controllers: they are database queries, aggregations and date parsing.
- Authentication is not modelled: JWT, password hashing, tokens and e-mail delivery are foreign-library calls and I/O.

## Findings

| source | as written | input that shows it | evidently intended | confidence | as-written member | corrected member |
|---|---|---|---|---|---|---|
| models/orderModel.js:155-168 | each line is checked against the stock before the order, so lines sharing a (product, size) are never checked together | one size with stock 5, an order of two lines of 3 for it: both pass and the stock becomes -1 | an order is placed only if every counter's total ordered quantity fits its stock, so stock never goes negative | high, not executed | Inventory.OverdrawAsWritten | Inventory.ReserveIffTotalsFit |
| controllers/orderController.js:204-208 | `status: 'new'` names no schema path, so it is dropped and the body's `orderStatus` is stored | a body with `orderStatus: 'done'` creates a done order | a new order always starts as new | high, not executed | OrderController.RequestedStatusSurvivesAsWritten | OrderController.CreateBody |
| utils/apiFeatures.js:28-33 | the email pattern is written into `queryObj` after it has been serialised, so `find` receives the plain email | `?email=Ann` matches only the exact email `Ann` | email is searched case-insensitively like name, sku and color (as `getAllUsers` relies on) | medium, not executed | ApiFeatures.EmailExactAsWritten | ApiFeatures.FilterSearchLiteral |
