# node-task-manager-api — a Dafny model of its authentication core and list logic

This project models the parts of the task-manager backend (Express with
Mongoose) that carry real logic, and proves properties of them. The rest of
the backend is CRUD passthrough to the database.

- **Authentication and session** (`controllers/authController.js`,
  `models/userModel.js`). This covers:
  - the security fields of a user document: password hash, confirmation,
    `passwordChangedAt`, reset token hash and expiry, `active` and `token`;
  - the two `pre('save')` hooks and the `pre(/^find/)` filter on `active`;
  - `correctPassword`, `changedPasswordAfter` and `createPasswordResetToken`;
  - the handlers `createSendToken`, `login`, `logout`, `protect`,
    `restrictTo`, `forgotPassword`, `resetPassword` and `updatePassword`.

  The parts are modelled as follows:
  - The user collection is a class holding a map from id to record.
  - A loaded Mongoose document is a class `UserDoc` with the record, its
    set of modified paths and `isNew`. `save()` runs validation, then the
    hooks, then writes only the modified paths.
  - One request/response exchange is a class `Exchange`. A second response,
    or a cookie set after the headers went out, throws
    `ERR_HTTP_HEADERS_SENT`. `next(..)` calls are recorded in order.
  - The process-wide `global.token` is a field of the application object
    `App`.
  - `jwt`, `bcrypt` and SHA-256 are a value of total functions. Only the
    axioms in `Crypto.Axioms` are assumed of them:
    - a signed token verifies to its claims until it expires, and only
      signed tokens verify;
    - a token is non-empty and has no spaces;
    - `compare(p, hash(q))` holds exactly when `p == q`;
    - a hash differs from its plaintext and has no surrounding whitespace;
    - SHA-256 has no collisions.
- **Ordered-list reordering** (`moveCategory`, `moveSubcategory`). This is
  imperative code over an array:
  - find the index of the target;
  - swap its `order` with its neighbour's;
  - stable-sort by `order` (an in-place insertion sort, proved equal to a
    functional stable sort);
  - renumber the items 1..n;
  - write the orders back to the collection.
- **Request shaping and listings**:
  - `filterObj` and the `updateMe` password guard;
  - the `password !== passwordConfirm` checks;
  - the upload MIME filter;
  - the project visibility filter;
  - gallery removal, gallery append and gallery file names;
  - the `limit`/`page`/`skip`/`totalPages` arithmetic and the flash
    messages of the list handlers;
  - `paginateData` and `alerts` in the views controller.
- **Error handling** (`controllers/errorController.js`). This covers the
  defaults, the `handle*` classification table, `sendErrorDev`,
  `sendErrorProd`, and the choice between them by `NODE_ENV` and the
  `/api` prefix.
- **Countdown** (`public/assets/js/pages/coming-soon.init.js`). This is the
  split of a millisecond distance into days, hours, minutes and seconds,
  with JavaScript's truncating `%`, and the `distance < 0` end condition.

Outside influences are parameters of the operations that need them:
- the clock (`now`, in milliseconds; `jwt`'s `iat` is `now / 1000`);
- `crypto.randomBytes` (`randomHex`);
- `validator.isEmail` (`isEmail`);
- the regex matcher used by the name filters (`regexMatches`);
- whether the best-effort `token` write succeeds (`tokenWriteOk`);
- the methods the mailer defines, and whether delivery succeeds.

Six parts of the code do not do what the design around them says. The
model follows the code.
- `changedPasswordAfter` compares every token with the constant 10. So a
  password change never invalidates a token issued earlier.
- `login` sends its error responses but keeps running. So a wrong password,
  given with a truthy email, still makes `global.token` the account's token.
- `createUser` hashes the password before the save hook hashes it again. So
  a user it creates cannot log in with the chosen password.
- The validation-error mapper reads `massage` instead of `message`. So its
  message never names the failing fields.
- `forgotPassword` calls a mailer method that the shipped mailer class does
  not define. So the reset flow always rolls back and answers 500.
- In production, the error handler classifies the error and then sends the
  unclassified one.

## Model

| member | source | states |
|---|---|---|
| Js.IndexOf | controllers/projectController.js:223 | `indexOf` yields the first index holding the element, and None exactly when it is absent |
| Js.SecondWordOfBearer | controllers/authController.js:122-123 | for a header `Bearer <t>` with `t` free of spaces, `startsWith('Bearer')` holds and `split(' ')[1]` is `t` |
| Js.TrimIsTrimmed | models/userModel.js:17-24 | `trim` leaves no leading or trailing whitespace and is idempotent |
| Js.Rem | public/assets/js/pages/coming-soon.init.js:14-16 | JavaScript `%` truncates: for a positive divisor the remainder has the dividend's sign, has magnitude below the divisor, and agrees with Euclidean `%` on non-negative dividends |
| Js.DecimalStringInjective | controllers/projectController.js:52 | distinct numbers interpolate to distinct decimal strings |
| Listing.OrDefault | controllers/categoryController.js:51-52 | `q * 1 \|\| d` is the query value unless it is absent or zero, then the default; a non-zero default gives a non-zero result |
| Listing.CeilDiv | controllers/categoryController.js:56 | `Math.ceil(a / b)` is the integer `r` with `(r-1)·b < a ≤ r·b` (mirrored for a negative divisor) |
| Listing.Paginate | controllers/categoryController.js:50-56 | limit and page are defaulted as `\|\|` does; skip is `(page-1)·limit`; totalPages is the fewest pages of `limit` documents holding `count` |
| Listing.EveryDocumentOnOnePage | controllers/categoryController.js:53-56 | every document index lies on exactly one page between 1 and totalPages |
| Listing.TotalPagesZeroIffEmpty | controllers/categoryController.js:56 | totalPages is 0 exactly when the collection is empty, and never negative |
| Listing.FlashMessage | controllers/categoryController.js:58-65 | `m = '1'` gives "… added", `m = '2'` gives "… deleted", and anything else gives the empty message, each as an if-and-only-if |
| Listing.KeyFilter | controllers/categoryController.js:46-49 | a name regex filter is added exactly when `key` is truthy, and it uses the key |
| Upload.ImageFilter | controllers/categoryController.js:14-20 | a file is accepted exactly when its mimetype starts with `image`; otherwise it is rejected with the not-an-image error |
| Upload.PrefixDecides | controllers/projectController.js:16-22 | `image/...` types pass; a type that only contains `image` after another first letter is rejected |
| UserModel.ParseRole | models/userModel.js:29-33 | an absent role defaults to `user`; an accepted role has the given name; any name other than `user`/`admin` is rejected |
| UserModel.DefaultView | models/userModel.js:34-69 | default queries omit exactly the `select: false` paths `password`, `active` and `token` |
| UserModel.WithPassword | controllers/authController.js:93 | `.select('+password')` adds back the password and nothing else |
| UserModel.NormalizeEmailIdempotent | models/userModel.js:17-24 | the stored email (lowercased, trimmed) is lower-case and trimmed, and normalizing again changes nothing |
| UserModel.CorrectPasswordForOwnHash | models/userModel.js:91-96 | `correctPassword` accepts the plaintext of the stored hash and rejects every other candidate |
| UserModel.ChangedPasswordAfterIgnoresChangeTime | models/userModel.js:98-105 | as written, no token with `iat ≥ 10` is ever reported older than the password, whatever the change time |
| UserModel.ChangedPasswordAfterCounterexample | models/userModel.js:100 | a token issued in 2020 against a password changed in 2023 passes the written check but fails the intended one |
| UserModel.IntendedRejectsOlderTokens | models/userModel.js:98-105 | with the seconds comparison, a token at least two seconds older than the save is rejected and one from the recorded second onward is accepted |
| UserModel.FindById | models/userModel.js:86-89 | `findById` returns the stored record exactly when it exists and is not deactivated |
| UserModel.FindOne | models/userModel.js:86-89 | `findOne` returns a matching active record, or None when no active record matches |
| UserModel.UserDoc.Loaded | controllers/authController.js:248 | a queried document starts with no modified paths and is not new |
| UserModel.UserDoc.Created | controllers/userController.js:156 | a new document is new, and every path it sets counts as modified |
| UserModel.UserDoc.SetPassword | controllers/authController.js:254 | assigning `password` stores the trimmed value and marks the path modified exactly when the value changes |
| UserModel.UserDoc.SetPasswordConfirm | controllers/authController.js:255 | the same for `passwordConfirm` |
| UserModel.UserDoc.SetResetFields | controllers/authController.js:218-219 | assigning the two reset fields changes only them and marks each path that changes |
| UserModel.UserDoc.CreatePasswordResetToken | models/userModel.js:107-116 | stores the SHA-256 of the random token and an expiry of now + 600000 ms, and returns the plaintext token |
| UserModel.UserDoc.BlankSecurityFields | controllers/authController.js:37-40 | `password`, both reset fields and `passwordChangedAt` are cleared on the in-memory user; nothing else changes |
| UserModel.UserDoc.HashPasswordHook | models/userModel.js:72-78 | when `password` was modified it is replaced by its cost-12 hash and `passwordConfirm` is cleared; otherwise nothing changes; hashing a missing password throws |
| UserModel.UserDoc.PasswordChangedAtHook | models/userModel.js:80-84 | `passwordChangedAt` becomes now − 1000 exactly when `password` was modified on a document that is not new |
| UserModel.UserDoc.Save | models/userModel.js:72-84 | `save` fails without writing when validation or a hook fails; otherwise it inserts a new document, or writes only the modified paths plus those the hooks set |
| AuthController.BearerHeaderWins | controllers/authController.js:122-123 | a `Bearer <t>` header selects `t` whatever the global token and the cookie hold |
| AuthController.GlobalTokenShadowsCookie | controllers/authController.js:126-128 | without a Bearer header, a truthy `global.token` is used and the cookie is never consulted |
| AuthController.CookieUsedLast | controllers/authController.js:124-134 | a distinct cookie token is used exactly when there is no Bearer header and no truthy global token |
| AuthController.AcceptOnlyLiveSignedTokens | controllers/authController.js:142-157 | `protect` accepts only an unexpired signed token of a stored, active user that passes the change check; the request then carries that user without the password hash |
| AuthController.SignedTokenAccepted | controllers/authController.js:144-157 | conversely, every unexpired token signed for an active user (issued at second 10 or later) is accepted, with that user |
| AuthController.DeactivatedUserRejected | models/userModel.js:86-89 | a valid token of a deactivated user is rejected as "no user" |
| AuthController.ResetSaveWrites | controllers/authController.js:238-242 | saving the prepared reset document stores a hash of the new password and the change time, and clears the confirmation and both reset fields |
| AuthController.PasswordSaveWrites | controllers/authController.js:254-256 | saving a changed password stores its hash, clears the confirmation and records the change time; no other path is written |
| AuthController.ResetFieldsWrites | controllers/authController.js:207-208 | `save({ validateBeforeSave: false })` after `createPasswordResetToken` writes exactly the two reset fields |
| AuthController.OldTokenSurvivesPasswordChange | controllers/authController.js:150-152 | after a password change, a token issued before it is still accepted as written, and rejected with the intended check |
| AuthController.LeadGuideAdmitsOnlyAdmins | routers/taskRoutes.js:18 | `restrictTo('admin', 'lead-guide')` admits exactly the users `restrictTo('admin')` admits, since no user can hold `lead-guide` |
| AuthController.TokenWritten | controllers/authController.js:29-35 | the best-effort `token` write changes at most that user's `token` field, and a failure is swallowed |
| AuthController.ShippedMailerLacksSendPasswordReset | middlewares/email.js:4-53 | the shipped `Email` class defines no `sendPasswordReset` |
| AuthController.App.CreateSendToken | controllers/authController.js:16-51 | sets `global.token`, the `jwt` cookie, the blanked user in `res.locals` and body, and the best-effort token write; after a response was already sent it throws before any of these except `global.token` |
| AuthController.App.Login | controllers/authController.js:86-105 | success only with both fields and the correct password; otherwise the error is sent but execution continues; with both fields truthy, a wrong password still sets `global.token` to the account's token and then throws on the cookie; after an early error, a wrong password throws on the second 404 and leaves `global.token` alone |
| AuthController.App.LoginIntended | controllers/authController.js:86-105 | with the missing `return`s added, `global.token` changes only on a correct password, and an error response leaves the store and `global.token` untouched |
| AuthController.App.Logout | controllers/authController.js:107-118 | sets `jwt=loggedout`, clears `jwt` and `token`, and sends the `messag` body; `global.token` is untouched |
| AuthController.App.Protect | controllers/authController.js:120-167 | for each outcome of the decision, the exact response and `next` call; only acceptance sets `req.user`, `res.locals.user` and `res.locals.token` |
| AuthController.App.RestrictTo | controllers/authController.js:192-199 | passes exactly when the user's role is listed, otherwise forwards a 403; the request is unchanged |
| AuthController.App.SaveResetFields | controllers/authController.js:208 | the save writes the two reset fields of that user only |
| AuthController.App.SendResetOrRollBack | controllers/authController.js:210-223 | a mailer with a working `sendPasswordReset` answers 200; otherwise both reset fields are cleared and re-saved and a 500 is forwarded |
| AuthController.App.ForgotPassword | controllers/authController.js:201-224 | an unknown email forwards 404 with no write; otherwise the reset fields are stored, then kept on delivery or rolled back on failure |
| AuthController.App.ApplyReset | controllers/authController.js:238-242 | the reset document is saved exactly when the new password fields validate, and the store then holds the reset record |
| AuthController.App.ResetPassword | controllers/authController.js:226-245 | only an active user whose stored token hash is the SHA-256 of the parameter and whose expiry is strictly later than now is reset; no match forwards 400 with no write |
| AuthController.App.UpdatePassword | controllers/authController.js:247-259 | a wrong current password forwards 401 with no write; a valid new password is hashed, `passwordChangedAt` is set and a fresh token is issued |
| AuthController.App.SaveNewPassword | controllers/authController.js:254-258 | a valid new password is saved and a fresh token issued; invalid lengths reject the save with no write |
| AuthController.App.SetAndSavePassword | controllers/authController.js:254-256 | the save succeeds exactly when the trimmed password and confirmation have 8 characters, and writes the hashed password record |
| AuthController.App.SessionSharedAfterLogout | controllers/authController.js:107-134 | after a login, a request carrying no header or cookie passes `protect` as the logged-in user |
| AuthController.App.ResetTokenSingleUse | controllers/authController.js:226-241 | after one successful reset, a second reset with the same token forwards 400 |
| RequestShaping.FilteredProperties | controllers/userController.js:44-50 | the filtered object has exactly the allowed keys the body has, with their values; filtering is idempotent and the identity when every key is allowed |
| RequestShaping.FilterObj | controllers/userController.js:44-50 | the loop builds that filtered object |
| RequestShaping.ProfileUpdate | controllers/userController.js:96-97 | the update holds only `surname`/`name`/`email` from the body, plus `photo` exactly when a file was uploaded |
| UserController.ListUsers | controllers/userController.js:63-80 | name filter on a truthy key; limit defaults to 12 and page to 1; skip and totalPages (over the whole collection) |
| UserController.GetMe | controllers/userController.js:52-55 | `req.params.id` becomes `req.user.id` and `next()` is called; nothing else changes |
| UserController.UpdateMeKeepsSecurityFields | controllers/userController.js:96-102 | whatever the body holds, `updateMe` cannot change the role, the password fields, the reset fields, `active` or `token` |
| UserController.UpdateMe | controllers/userController.js:91-110 | a password field in the body forwards 400 with no write; otherwise the filtered, validated update is applied to that user only |
| UserController.NewUser | controllers/userController.js:148-156 | the created record has the trimmed password and confirmation and no change or reset fields; an unknown role fails |
| UserController.CreateFrom | controllers/userController.js:156-167 | a successful `create` inserts one record whose password is the hook's hash of what was passed; a failure answers 200 with the error and writes nothing |
| UserController.CreateUser | controllers/userController.js:145-168 | mismatched passwords answer `Password not match` with no write; a created user stores a hash of a hash |
| UserController.CreatedUserCannotLogIn | controllers/userController.js:154-156 | the chosen password is rejected by what `createUser` stores |
| UserController.CreateUserIntended | controllers/userController.js:145-168 | without the handler's own hash, the stored password is the hook's hash of the plaintext |
| UserController.CreatedUserIntendedCanLogIn | controllers/userController.js:154-156 | that stored hash accepts the chosen password and no other |
| UserController.UpdatePassword | controllers/userController.js:206-240 | mismatch answers `Password not match` with no write; otherwise `findByIdAndUpdate` stores the handler's hash in both fields and bypasses the hooks |
| UserController.UpdatedPasswordLogsIn | controllers/userController.js:216-226 | the stored hash accepts the new password, and `passwordChangedAt` is unchanged |
| ClientController.ListClients | controllers/clientController.js:57-68 | name filter on a truthy key; limit defaults to 12 and page to 1; skip and totalPages (over the whole collection) |
| ClientController.GetMe | controllers/clientController.js:49-52 | `req.params.id` becomes the client's id; without `req.client` the handler throws |
| ClientController.UpdateMeKeepsCompany | controllers/clientController.js:84-90 | `updateMe` never changes the id or the company name, and takes the email from the body when given |
| ClientController.UpdateMe | controllers/clientController.js:79-98 | the user handler's guard and update, applied to `req.client` |
| ClientController.UpdatePassword | controllers/clientController.js:187-221 | the store never changes, since the client schema has no password paths; the reply depends only on the match check |
| ErrorController.FromAppError | controllers/errorController.js:5 | an `AppError` is operational, keeps its code and message, and matches none of the classification tests |
| ErrorController.Classify | controllers/errorController.js:74-89 | CastError → 400 with path and value; code 11000 → 400; ValidationError → 400; JsonWebTokenError and TokenExpiredError → 401 with their messages; unclassified exactly when none of these holds |
| ErrorController.WithDefaults | controllers/errorController.js:67-68 | a falsy status code becomes 500 and a falsy status becomes `error`; present values and all other properties are kept |
| ErrorController.SendErrorDev | controllers/errorController.js:30-43 | `/api` requests get the whole error with its stack; others get the error page; both with the error's code |
| ErrorController.SendErrorProd | controllers/errorController.js:45-64 | `/api` requests get the operational error's code and message, or a generic 500; never the stack |
| ErrorController.HandleError | controllers/errorController.js:66-92 | defaults are filled in; development and production pick their sender; the mapped error is computed but the original is sent; any other `NODE_ENV` sends nothing |
| ErrorController.JoinOfAbsent | controllers/errorController.js:15-16 | joining only absent values gives only the separators |
| ErrorController.ValidationMessageIgnoresFields | controllers/errorController.js:14-18 | as written, two validation errors with the same number of fields get the same message, whatever the fields say |
| ErrorController.ValidationMessageOfOneField | controllers/errorController.js:14-18 | for one failed field the written message is just the prefix; the intended one carries the field's message |
| ErrorController.ProductionHidesStack | controllers/errorController.js:45-64 | no production response carries the stack, and a non-operational `/api` error is a generic 500 |
| ErrorController.CastErrorStillGeneric | controllers/errorController.js:74-90 | a CastError is classified 400 yet reaches the client as a generic 500 |
| ErrorController.HandleErrorIntended | controllers/errorController.js:74-90 | sending the classified error: its code, status and message reach the `/api` client |
| ErrorController.IntendedClassifiedCodes | controllers/errorController.js:3-28 | with the intended handler, database errors reach the client as 400 and token errors as 401 |
| ViewsController.Alerts | controllers/viewsController.js:6-12 | `res.locals.alert` is set exactly when `alert` is `booking`; `next()` is always called |
| ViewsController.PaginateData | controllers/viewsController.js:86-93 | totalPages is the ceiling of results over limit; page and limit come back unchanged; 0 results give 0 pages |
| ViewsController.TotalPagesIsFewest | controllers/viewsController.js:87 | no smaller page count covers the results |
| Countdown.Split | public/assets/js/pages/coming-soon.init.js:13-16 | days is the floor of distance over a day; for a non-negative distance the hours are below 24 and the minutes and seconds below 60 (with the matching negative bounds otherwise) |
| Countdown.Tick | public/assets/js/pages/coming-soon.init.js:35-38 | the end text replaces the units exactly when the distance is negative |
| Countdown.Recomposition | public/assets/js/pages/coming-soon.init.js:11-16 | for a non-negative distance, the units recompose to the distance rounded down to the second |
| CategoryController.ListCategories | controllers/categoryController.js:44-65 | name filter on a truthy key; limit defaults to 20 and page to 1; skip and totalPages; the flash message |
| CategoryController.MoveCategory | controllers/categoryController.js:170-208 | an unknown id answers 404; an impossible or unknown move answers 400; both write nothing; otherwise the array is swapped, sorted and renumbered, and the stored orders are a numbering 1..n of the same documents |
| SubcategoryController.BuildFilter | controllers/subcategoryController.js:13-24 | the name regex is present exactly for a truthy key, and the category equality exactly for a truthy category |
| SubcategoryController.FilterIsConjunction | controllers/subcategoryController.js:13-24 | the combined filter selects exactly what both single filters select; with neither, everything is selected |
| SubcategoryController.ListSubcategories | controllers/subcategoryController.js:12-49 | the filter and echoed query values; limit defaults to 20 and page to 1; skip and totalPages over the whole collection; the flash message |
| SubcategoryController.MoveSubcategory | controllers/subcategoryController.js:145-195 | the category move's contract for subcategories |
| ProjectController.VisibilityByRole | controllers/projectController.js:75-79 | an admin sees exactly their own projects; a user also sees those they are a member of; so an admin who is only a member does not see it |
| ProjectController.ListProjects | controllers/projectController.js:64-101 | name filter on a truthy key; limit defaults to 12 and page to 1; skip and totalPages; the flash message |
| ProjectController.RemoveFirst | controllers/projectController.js:223-226 | an absent image leaves the gallery unchanged; otherwise exactly one occurrence is removed |
| ProjectController.RemoveFirstKeepsOthers | controllers/projectController.js:223-226 | it is the first occurrence that goes, and the others keep their order |
| ProjectController.DeleteGallery | controllers/projectController.js:216-241 | no image name forwards 404; a missing project throws; otherwise the stored gallery loses the first occurrence and the client is redirected |
| ProjectController.UpdateGallery | controllers/projectController.js:206-214 | the new names are appended in order after the existing ones; the 404 branch never runs |
| ProjectController.ResizeGallery | controllers/projectController.js:47-62 | one name per uploaded file, the i-th ending in `-<i+1>.jpeg` |
| ProjectController.GalleryNamesDistinct | controllers/projectController.js:52 | two files of one upload never get the same name, whatever the clock reads |
| ProjectController.CoverIsNotGallery | controllers/projectController.js:36 | a cover name never collides with a gallery name |
| Reorder.IndexOfId | controllers/categoryController.js:181 | `findIndex` yields the first position of the id, or −1 exactly when it is absent |
| Reorder.SwapOrders | controllers/categoryController.js:183-190 | the two items exchange their `order` values; every item keeps its id and all others are unchanged |
| Reorder.SwapOrdersSymmetric | controllers/categoryController.js:183-190 | swapping `i` with `j` is swapping `j` with `i` |
| Reorder.StableSortPermutes | controllers/categoryController.js:195 | sorting neither adds nor loses items |
| Reorder.StableSortSorted | controllers/categoryController.js:195 | the result is ordered by `order` |
| Reorder.StableSortIsStable | controllers/categoryController.js:195 | items with equal `order` keep their relative order |
| Reorder.StableSortOfSorted | controllers/categoryController.js:195 | a sorted list is left as it is |
| Reorder.StableSortIds | controllers/categoryController.js:195 | the sorted ids are a permutation of the ids |
| Reorder.SwapThenSortExchanges | controllers/categoryController.js:183-195 | on a sorted list with distinct neighbouring orders, swap-then-sort exchanges exactly the two items' positions |
| Reorder.SwapEqualOrdersChangesNothing | controllers/categoryController.js:183-195 | swapping two equal orders and sorting leaves the list unchanged |
| Reorder.RenumberedShape | controllers/categoryController.js:197-199 | renumbering keeps the ids in place and numbers the list 1..n |
| Reorder.MovedListNumbering | controllers/categoryController.js:183-199 | the moved list is numbered 1..n and holds the same ids |
| Reorder.FindIndex | controllers/categoryController.js:181 | the loop finds the index `findIndex` specifies |
| Reorder.SwapOrdersInPlace | controllers/categoryController.js:184-186 | the array afterwards is the order swap of the array before |
| Reorder.InsertItem | controllers/categoryController.js:195 | one insertion step places item `i` stably into the sorted prefix and leaves the rest |
| Reorder.SortByOrder | controllers/categoryController.js:195 | the in-place sort yields the stable sort of the array |
| Reorder.Renumber | controllers/categoryController.js:197-199 | the `forEach` yields the renumbered array |
| Reorder.Move | controllers/categoryController.js:181-199 | not found and impossible moves leave the array alone, each as an if-and-only-if; a move yields swap, sort and renumber |
| Reorder.MoveDownEffect | controllers/categoryController.js:187-199 | moving down exchanges the target with the next item when their orders differ, changes nothing when they are equal, and numbers 1..n |
| Reorder.MoveUpEffect | controllers/categoryController.js:183-199 | the same for moving up and the item above |
| Reorder.DistinctPermutation | controllers/categoryController.js:180-201 | a permutation of distinct ids is distinct |
| Reorder.WriteOrdersEffect | controllers/categoryController.js:201 | after the batch of writes each listed document holds its item's order and no other document changes |
| Reorder.NumberedWrite | controllers/categoryController.js:197-201 | writing a 1..n numbering of all documents gives each a distinct order between 1 and n |
| Reorder.MoveStoresNumbering | controllers/categoryController.js:195-201 | after any move the collection's orders are distinct and between 1 and n, over the same documents |

## Left out

- Database access: Mongoose query building, `$regex`, `sort`/`skip`/`limit`, `populate`, aggregation and `countDocuments`. Collections are maps, counts are parameters and a regex match is a parameter.
- Cryptography: `jwt`, `bcrypt`, SHA-256 and `crypto.randomBytes` are not implemented. They are uninterpreted functions with the axioms above, and the random bytes are a parameter.
- File and image I/O: `multer` storage, `sharp`, `fs`, and the user and client photo file names. The model keeps only the MIME predicate and the project file names.
- Email: the mailer is the set of methods it defines plus a delivery flag. Message contents, the transport and the `Email` constructor's arguments are not modelled.
- Express wiring: routers, `index.js`, sessions, CORS, `demo_mode` and `catchAsync`. The model assumes `catchAsync` forwards every rejection to `next` (`Rethrown`). The role lists are kept only as the arguments of `restrictTo`.
- `utils/error` (`AppError`) is not part of this model. `FromAppError` assumes the conventional class: operational, and `fail` for 4xx codes.
- Whether `name` survives the `{ ...err }` copy of an `Error` is not modelled. The classification reads the copy as carrying the same `name`.
- The duplicate-key regex on `errmsg` is abstracted as the extracted `quotedValue`.
- `Caught` replies do not track the caught error's message.
- JavaScript numbers: the model uses integers. The limit of `paginateData` is 0 in the model where JavaScript would produce `Infinity`/`NaN`, and that case yields None. Negative or fractional limits are not distinguished from other integers.
- `toLowerCase` is modelled for ASCII letters only.
- Non-core handlers: `signup`, `isLoggedIn`, `getTokenDb`, `deleteMe`, `editUser`, `updateUser`, the other CRUD handlers and all schema-only models.
- UserModel.FindOne: returns some active matching record, not the first one in natural order. Queries in the model match at most one record where it matters.
- The `catch` branch of the move handlers (500 on a database failure) is not modelled, nor the CastError `findById` raises on a malformed id. Database calls in these handlers never fail in the model.
- Concurrency: `Promise.all` completion order of the gallery `push` and of the order writes. The writes are one batch, and gallery names are in file order with one clock reading per file.
- `req.client` is never set by `protect`, so it is a parameter of the client handlers. Without it they throw.
- Clock reads are parameters.
- ProjectController.DeleteGallery: `findById(req.body.id)` at projectController.js:217 runs before the image check, so a malformed id rejects with a CastError before the 404. Queries never fail in the model.
- `bcrypt`'s per-call salt is not modelled: `hash` is a function of the password and the cost. `compare` ignores bcrypt's truncation of passwords to 72 bytes.
- The countdown's timer and DOM writes.
- AuthController.App.ResetPassword: states only that the reply is a 200. The issued body is what App.CreateSendToken states.
- AuthController.App.UpdatePassword: states only that the reply is a 200 on success, for the same reason.
- AuthController.App.SaveNewPassword: states only that the reply is a 200 on success, for the same reason.
- AuthController.App.SessionSharedAfterLogout: states only what the third request sees, not the replies of the login and logout requests.
- AuthController.App.ResetTokenSingleUse: states only the outcome of the second attempt.

## Findings

| source | as written | input that shows it | evidently intended | confidence | as-written member | corrected member |
|---|---|---|---|---|---|---|
| models/userModel.js:100 | `(getTime() / 1000, 10)` is a comma expression, so the change time is always 10 | password changed at 1.7e12 ms, token `iat` 1.6e9 s: not reported as changed | compare the token's `iat` with the change time in seconds | high, not executed | UserModel.ChangedPasswordAfterCounterexample | UserModel.IntendedRejectsOlderTokens |
| controllers/authController.js:89-104 | `errorLogin(res)` is not followed by `return`, so `createSendToken` runs after a wrong password | a known email with a truthy wrong password: `global.token` becomes that account's token, and later requests without credentials pass `protect` as it | stop after the error response | high, not executed | AuthController.App.Login | AuthController.App.LoginIntended |
| controllers/userController.js:154-156 | the handler hashes the password, and the save hook hashes the hash again | any password `p`: `correctPassword(p, stored)` is false | store only the hook's hash of the plaintext | high, not executed | UserController.CreatedUserCannotLogIn | UserController.CreatedUserIntendedCanLogIn |
| controllers/errorController.js:15 | the handler reads `el.massage`, which no validator error has | one failed field with message `m`: `handleValidationErrorDb` returns just `Invalid input data `; in production line 90 sends `err` instead, so no response shows this until that is fixed | join each field's `message` | high, not executed | ErrorController.ValidationMessageIgnoresFields | ErrorController.ValidationMessageOfOneField |
| controllers/errorController.js:90 | production sends `err`, so the classified `error` is dropped | a Mongoose CastError on an `/api` route: a generic 500, not a 400 | send the classified error | high, not executed | ErrorController.CastErrorStillGeneric | ErrorController.IntendedClassifiedCodes |
| controllers/authController.js:212 | `forgotPassword` calls `sendPasswordReset`, which the `Email` class does not define | any known email: the reset fields are stored, then cleared, and a 500 is forwarded | a mailer method that sends the reset link | medium, not executed | AuthController.ShippedMailerLacksSendPasswordReset | AuthController.App.ForgotPassword |
