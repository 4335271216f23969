# UseCaseTool: a Dafny model of its access control, use-case store and account lifecycle

UseCaseTool is a web application for writing use cases collaboratively. An Express backend
keeps accounts, use cases and an edit history. A React frontend guards its pages and edits use
cases in a form. This project models the part of the system that decides who may do what, and
what each handler does to the stored data:

- **The two gates in front of every protected route.** `authenticateToken` reads the token from
  the `Authorization` header; the model is `AuthMiddleware.AuthenticateToken`. `checkRole` compares
  the caller's role with the route's allowed roles; the model is `CheckRoleMiddleware.CheckRole`.
  `Pipeline.Admit` composes the two in their registration order.
- **The use-case handlers** (create, list, get, update, delete, history). They are methods of
  `UseCaseRoutes.UseCaseStore`, a class whose fields stand for the `use_case` and
  `use_case_history` tables and their id counters. An update stores the pre-edit content as a
  history entry. Only the creator or an admin may update.
- **The account handlers** (register, login, activate, delete a user, list users, change a role).
  They are methods of `Accounts.AccountStore`, whose fields stand for the `users` and
  `userActivation` tables. The five-character activation code is in `ActivationCode`.
- **The table schemas** (`UserModel`, `UseCaseModel`, `UseCaseHistoryModel`,
  `UserActivationModel`): which columns are required, and the defaults of role and active flag.
- **The client side.** `RouteGuards` holds the route guards `AdminRoute` and `PrivateRoute` and
  the edit-button rule of the details page. `UseCaseForm` holds the form's state, its prefill,
  field edits and the required-field check on submit. The lemmas show where these advisory
  checks agree with the server.

**Parameters, not calls.** The model takes these as function-typed parameters:

- JWT verification: `verify` on the server, and decoding on the client: `decode`. `None` means
  the library rejects or throws. Signing is not a parameter: `Login` returns the payload and
  lifetime it asks `jwt.sign` to sign (a `TokenRequest`).
- Password hashing and comparison: `hash`, `compare`.
- E-mail syntax checking: `isEmail`. `Register` requires that it refuses the empty string, as
  validator.js's `isEmail` does.

The three random bytes behind an activation code and the clock (`now`) are plain parameters.
The handlers that read `req.user` (create and update of a use case) take the caller's claims,
which are what the gates attach there.
The `Scenarios` module replays four walkthroughs against the contracts alone: activation
before login, a single-use activation code, the ownership rule of updates, and a history that
outlives its use case.

**Behaviour of the code worth knowing.** The model keeps each of these as the code has it:

- **The read-only role is the string `"visualizador"`.** It is the column's default and one of
  its three allowed values (backend/models/user.js:20-27), it appears in every read-only
  `checkRole` list, and registration gives it to every new account (backend/routes/auth.js:89).
- **The history entry and the updated row are two separate writes.** The history entry is
  written first (backend/routes/useCaseRoutes.js:117-128), then the row is saved (:139). A body
  that passes the title/description check but lacks another non-null column fails the save
  with 500, and the history entry it wrote stays. `UseCaseStore.Update` states exactly that.
- **The `Bearer` scheme is never checked.** The token is the second space-separated piece of
  the header, whatever the first piece is (backend/middleware/authMiddleware.js:6). See
  `SchemeIgnored` and `TrailingPiecesIgnored`.
- **PrivateRoute sends a visitor without a token to `/`** (usecase-frontend/src/components/PrivateRoute.jsx:8-10).
  Its test (usecase-frontend/src/components/tests/PrivateRoute.test.jsx:31-36) expects `/login`.
- **Login answers 400 before any lookup when the e-mail or the password is missing or empty**
  (backend/routes/auth.js:118-122).

## Model

| member | source | states |
|---|---|---|
| Base.OrEmpty | usecase-frontend/src/components/UseCaseForm.jsx:26-33 | the "or empty string" default of a field is empty exactly when the field is absent or empty |
| Text.SplitPiecesAreFree | backend/middleware/authMiddleware.js:6 | no piece of `split(" ")` contains the separator |
| Text.Split | backend/middleware/authMiddleware.js:6 | `split(" ")` on one separator character: always at least one piece; what the pieces are is stated by the Split lemmas below |
| Text.SplitIntoSeveral | backend/middleware/authMiddleware.js:6 | a split has more than one piece exactly when the string holds the separator |
| Text.JoinSplit | backend/middleware/authMiddleware.js:6 | joining the pieces of a split with the separator gives the original string back |
| Text.SplitJoin | backend/middleware/authMiddleware.js:6 | splitting a join of separator-free pieces gives exactly those pieces back |
| Text.SplitNoSeparator | backend/middleware/authMiddleware.js:6 | a string without the separator splits into itself alone |
| Text.SplitAppend | backend/middleware/authMiddleware.js:6 | splitting `a + sep + b` gives the pieces of `a` followed by the pieces of `b` |
| Text.TrimStartSpec | usecase-frontend/src/components/UseCaseForm.jsx:61-69 | the result is a suffix, the part removed is all white space, the result does not start with white space, and it is empty exactly when the input is blank |
| Text.TrimEndSpec | usecase-frontend/src/components/UseCaseForm.jsx:61-69 | the result is a prefix, the part removed is all white space, the result does not end with white space, and it is empty exactly when the input is blank |
| Text.TrimEmptyIffBlank | usecase-frontend/src/components/UseCaseForm.jsx:61-69 | `trim()` gives "" exactly when the string is all white space |
| Text.Trim | usecase-frontend/src/components/UseCaseForm.jsx:61-69 | `trim()`: drops white space at both ends; its meaning is stated by TrimStartSpec, TrimEndSpec and TrimEmptyIffBlank |
| Ordering.Insert | backend/routes/useCaseRoutes.js:65-66 | inserting into a newest-first sequence keeps it newest-first and adds exactly the new element |
| Ordering.SortDesc | backend/routes/useCaseRoutes.js:65-66 | `ORDER BY … DESC` gives a newest-first permutation of the rows: same multiset, every row in and nothing else |
| Tables.Rows | backend/routes/useCaseRoutes.js:65 | a full scan lists every stored row of the key range, only those rows, and as many rows as there are keys |
| Tables.FindKey | backend/routes/auth.js:77 | `findOne` finds a key whose row matches when one exists, and reports none only when no row matches |
| UserModel.IsRole | backend/models/user.js:24-26 | the `isIn` validator of the role column: exactly "admin", "editor" and "visualizador" |
| UserModel.UniqueEmails | backend/models/user.js:11-15 | the unique constraint on `email`: no two rows share an e-mail; kept by every account handler as part of the store invariant |
| UseCaseModel.Complete | backend/models/useCase.js:12-39 | the seven non-null content columns are present; `exceptions` may be null |
| UserModel.NewAccount | backend/models/user.js:20-31 | the column validators accept exactly when the role is absent (`undefined`) or one of the three, and the created row then meets the schema (the unique e-mail index is a separate refusal, see `UserModel.UniqueEmails`); an absent role defaults to "visualizador" and an absent active flag to false |
| UseCaseHistoryModel.EntriesFor | backend/routes/useCaseRoutes.js:186-187 | `WHERE use_case_id = id` keeps only that use case's entries, each as often as it is stored |
| CheckRoleMiddleware.CheckRole | backend/middleware/checkRole.js:1-13 | 401 exactly when no user is attached, 403 exactly when the role is not allowed, next() exactly when it is |
| CheckRoleMiddleware.CheckRoleMonotonic | backend/middleware/checkRole.js:7-9 | only membership of the role matters: a larger allowed list never turns a pass into a denial |
| AuthMiddleware.AuthenticateToken | backend/middleware/authMiddleware.js:4-18 | 401 exactly when the header yields no non-empty token, 403 exactly when the verifier rejects the token, otherwise the verified claims become the user |
| AuthMiddleware.TokenOf | backend/middleware/authMiddleware.js:6 | no token exactly when the header is absent, or non-empty without a space; a token never contains a space |
| AuthMiddleware.MissingTokenIgnoresVerifier | backend/middleware/authMiddleware.js:8-13 | the 401 is decided before verification: without a token the verifier plays no part |
| AuthMiddleware.SchemeIgnored | backend/middleware/authMiddleware.js:6 | any space-free first word is accepted in place of "Bearer" |
| AuthMiddleware.TrailingPiecesIgnored | backend/middleware/authMiddleware.js:6 | words after the token are ignored |
| AuthMiddleware.NoSpaceNoToken | backend/middleware/authMiddleware.js:6-10 | a header without a space is answered 401 whatever the verifier says |
| AuthMiddleware.EmptySecondPiece | backend/middleware/authMiddleware.js:6-10 | a header whose second piece is empty ("Bearer " or a double space) is answered 401 |
| Pipeline.Admit | backend/routes/useCaseRoutes.js:10-13 | a route admits the caller exactly when the token verifies and the role is allowed; it passes on the authentication rejection, denies a wrong role with 403, and never gives checkRole's 401 |
| UseCaseRoutes.UseCaseRouteRoles | backend/routes/useCaseRoutes.js:13-209 | list and get admit every role, create and update admit admin and editor, delete and history admit admin only |
| UseCaseRoutes.HasTitleAndDescription | backend/routes/useCaseRoutes.js:26-30 | the first check of create and update (also :100-104): both title and description are truthy |
| UseCaseRoutes.MayEdit | backend/routes/useCaseRoutes.js:113-115 | the ownership rule of update: the caller created the use case or is an admin |
| UseCaseRoutes.UseCaseStore.constructor | backend/models/useCase.js:7-11 | empty tables whose auto-increment ids start at 1 |
| UseCaseRoutes.UseCaseStore.Create | backend/routes/useCaseRoutes.js:10-56 | 400 and nothing stored without a title and description; 500 and nothing stored when another non-null column is missing; otherwise a new row under the next id, created by the caller, stamped now, answered 201; history untouched |
| UseCaseRoutes.UseCaseStore.Get | backend/routes/useCaseRoutes.js:206-223 | 200 with the stored row exactly when the id is stored, otherwise 404 |
| UseCaseRoutes.UseCaseStore.List | backend/routes/useCaseRoutes.js:59-80 | every stored use case and nothing else, each once (as many rows as stored use cases), newest first |
| UseCaseRoutes.UseCaseStore.Update | backend/routes/useCaseRoutes.js:83-150 | checks in order 400 (title/description), 404 (unknown id), 403 (neither creator nor admin), each changing nothing; past them appends one history entry with the pre-edit content, the editor and the time; then 200 with the content replaced and nothing else changed, or 500 with the row unchanged and the history entry kept |
| UseCaseRoutes.UseCaseStore.Delete | backend/routes/useCaseRoutes.js:153-177 | 404 for an unknown id; otherwise the row is removed and 200; the history is never touched |
| UseCaseRoutes.UseCaseStore.ListHistory | backend/routes/useCaseRoutes.js:180-203 | exactly the entries of that use case, each as often as stored, newest edit first; it works for a deleted use case too |
| ActivationCode.Hex | backend/routes/auth.js:31 | `toString("hex")`: two lowercase hex digits per byte, high nibble first |
| ActivationCode.UnhexHex | backend/routes/auth.js:31 | the hex form loses nothing: reading it back gives the bytes |
| ActivationCode.Generate | backend/routes/auth.js:30-32 | the code has five lowercase hex digits: the hex of the first two bytes and the high nibble of the third |
| ActivationCode.GenerateCollision | backend/routes/auth.js:30-32 | two draws give the same code exactly when they agree on the first two bytes and the third byte's high nibble |
| Accounts.AccountRouteRoles | backend/routes/userRoutes.js:8-30 | listing users (the gate at :11) and changing a role (the gate at :30) admit admins only, and so does deleting a user (backend/routes/auth.js:203-206) |
| Accounts.View | backend/routes/userRoutes.js:15 | a listed user carries the account's id, username, e-mail, role, active flag and creation time, and no password |
| Accounts.Views | backend/routes/userRoutes.js:14-17 | the projection keeps the number and the order of the rows |
| Accounts.RegistrationErrors | backend/routes/auth.js:61-72 | each validation message is reported exactly when its rule fails: empty username, invalid e-mail, password shorter than six |
| Accounts.AccountStore.constructor | backend/models/user.js:4-38 | empty tables whose user ids start at 1 |
| Accounts.AccountStore.FindByEmail | backend/routes/auth.js:77 | finds a stored account with that e-mail exactly when one exists |
| Accounts.AccountStore.Register | backend/routes/auth.js:59-112 | 400 with the failing validation messages, or 400 "already exists" for a taken e-mail, each changing nothing; otherwise a new inactive "visualizador" account under the next id with the hashed password, one activation record with the generated code, 201; e-mails stay unique |
| Accounts.AccountStore.Login | backend/routes/auth.js:115-167 | in order: 400 missing field, 404 unknown e-mail, 400 not activated, 401 wrong password, else 200 with a one-hour token for the account's id, username and role, which is always a valid role |
| Accounts.AccountStore.Activate | backend/routes/auth.js:170-200 | 404 for an unknown e-mail, 400 when no record matches that account and code, each changing nothing; otherwise the account becomes active and that record is deleted, so a repeated activation is refused |
| Accounts.AccountStore.DeleteUser | backend/routes/auth.js:203-227 | 404 for an unknown id; otherwise the account is removed and 200; activation records are untouched |
| Accounts.AccountStore.ListUsers | backend/routes/userRoutes.js:8-24 | the view of every stored account and nothing else, each once (as many rows as accounts), newest first |
| Accounts.AccountStore.UpdateRole | backend/routes/userRoutes.js:27-47 | 400 for a role outside the three before any lookup, 404 for an unknown id, each changing nothing; otherwise only that account's role changes, 200 |
| RouteGuards.AdminRoute | usecase-frontend/src/components/AdminRoute.jsx:5-19 | to "/" without a token or when decoding fails, to "/dashboard" for a non-admin, and the page exactly for a decoded admin |
| RouteGuards.PrivateRoute | usecase-frontend/src/components/PrivateRoute.jsx:5-23 | to "/" without a token or when decoding fails, to "/unauthorized" when a roles list excludes the role, and the page exactly otherwise |
| RouteGuards.AdminRouteMatchesPrivateRoute | usecase-frontend/src/components/AdminRoute.jsx:7-18 | AdminRoute admits exactly whom PrivateRoute with roles ["admin"] admits; only the redirect for non-admins differs |
| RouteGuards.AdminRouteAgreesWithServer | usecase-frontend/src/components/AdminRoute.jsx:5-19 | with a client decode that agrees with the server verifier, the admin pages render exactly when the server admits the same token to an admin-only route |
| RouteGuards.CanEdit | usecase-frontend/src/pages/UseCaseDetails.jsx:44-46 | the edit button is shown only to admins and editors |
| RouteGuards.CanEditAgreesWithServer | usecase-frontend/src/pages/UseCaseDetails.jsx:44-46 | the edit button is shown exactly when the server's update route would pass both its role gate and its ownership check |
| UseCaseForm.Prefill | usecase-frontend/src/components/UseCaseForm.jsx:23-48 | the form holds exactly the eight fields: each the use case's column or "" when null, all "" without a use case |
| UseCaseForm.RequiredFilled | usecase-frontend/src/components/UseCaseForm.jsx:61-69 | the submit check: no required field is empty after `trim()`; its meaning is stated by RequiredFilledMeansNotBlank |
| UseCaseForm.ContentOf | usecase-frontend/src/components/UseCaseForm.jsx:78 | the content `onSave` sends: every field of the form, `exceptions` included, as a string |
| UseCaseForm.RequiredFilledMeansNotBlank | usecase-frontend/src/components/UseCaseForm.jsx:61-72 | the submit check passes exactly when no required field is blank |
| UseCaseForm.ExceptionsNeverRequired | usecase-frontend/src/components/UseCaseForm.jsx:61-69 | the value of `exceptions` never affects the submit check |
| UseCaseForm.SubmittedFormPassesServerChecks | usecase-frontend/src/components/UseCaseForm.jsx:61-78 | content that passes the client's check also passes the server's title/description check; it has every non-null column whether or not the check passes, since the form sends all eight fields as strings |
| UseCaseForm.PrefillRoundTrip | usecase-frontend/src/components/UseCaseForm.jsx:23-34 | submitting an untouched prefilled form sends the stored content back; only a null `exceptions` comes back as "" |
| UseCaseForm.FormState.constructor | usecase-frontend/src/components/UseCaseForm.jsx:9-48 | mounting prefills the form, with no error and not loading |
| UseCaseForm.FormState.UseCaseChanged | usecase-frontend/src/components/UseCaseForm.jsx:23-48 | a new `useCase` prop re-prefills the form and clears the error |
| UseCaseForm.FormState.HandleChange | usecase-frontend/src/components/UseCaseForm.jsx:50-56 | the named field takes the value and every other field keeps its own |
| UseCaseForm.FormState.HandleSubmit | usecase-frontend/src/components/UseCaseForm.jsx:58-85 | with a blank required field: the error is set and nothing is saved; otherwise `onSave` gets the form data and the edited id, the error afterwards says whether it failed, and loading ends |

## Left out

- JWT internals: signing, signature verification and expiry. Verification and client-side decoding are the parameters `verify` and `decode`. Signing is represented by Login's result, the payload and lifetime it asks `jwt.sign` to sign.
- bcrypt hashing and comparison: the parameters `hash` and `compare`. E-mail syntax checking is the parameter `isEmail`.
- Randomness: the three bytes behind an activation code are a parameter. The clock is too.
- Sending the activation e-mail (nodemailer). It has no effect on the stored data or the reply.
- The user join (`include`, alias "creator") of the use-case list. It adds the creator's id, name and e-mail to each row and does not change which rows are listed or their order.
- UseCaseRoutes.UseCaseStore.ListHistory: states the answer the route evidently intends, not the one it gives. Its `include: { model: User }` (backend/routes/useCaseRoutes.js:189-192) names no alias, while backend/models/associations.js:18-21 registers that association under the alias "editor", and backend/index.js:10 loads that file. Sequelize refuses such an include, so as written the route answers 500 on every request, by Sequelize's include and attribute rules.
- UseCaseRoutes.UseCaseStore.List: orders by the creation time the row stores. The code asks for `"createdAt"` (backend/routes/useCaseRoutes.js:66), an attribute backend/models/useCase.js does not define: it declares `created_at` and turns automatic timestamps off (:48-51, :59). On a table created by `sync` from this model (backend/index.js:26) that column does not exist and the query answers 500, by Sequelize's include and attribute rules.
- Success message texts. The handlers' non-error bodies are reduced to the payload or message the model returns.
- The 500 answers of the `catch` blocks for database failures. The exception is a missing non-null column on create and update, which the handler code can provoke itself and the model states.
- Malformed ids in the path (`"abc"`): ids are integers here.
- Activate with an absent e-mail or code. An `undefined` in a `where` clause is the ORM's behaviour, not the handler's. Activate takes the two strings as given.
- `updatedAt` and `updated_at` columns, the activation row's own id and timestamps, and the history table's `createdAt`/`updatedAt`. No handler reads them.
- Foreign-key actions when a user is deleted. They come from the ORM associations in backend/models/associations.js:6-21, which backend/index.js:10 loads before `sync` (:26), and are not part of this model. With Sequelize's default actions, `created_by` is set to null when its user is deleted, and `edited_by`, a non-null column, refuses the delete. On a database built by `sync`, `Accounts.AccountStore.DeleteUser` therefore answers 500 for a user who has edited a use case, and deleting a creator clears `created_by`, where the model removes only the account row.
- Accounts.AccountStore.FindByEmail: compares e-mails exactly, and so do Register, Login and Activate, which also compare activation codes exactly. The database is MySQL (backend/config/database.js:3-6), whose default collations compare strings without regard to case. In the code, "A@x.com" therefore finds the account of "a@x.com", registering "A@x.com" after "a@x.com" answers 400 "Usuário já existe." where the model answers 201, and the code "ABCDE" activates an account issued "abcde". The collation is the database's, not the handlers'.
- Accounts.AccountStore.Activate: takes the e-mail and the code as strings, and Register and Login take their body fields as optional strings. `express.json()` (backend/index.js:15) also delivers numbers, booleans and objects, and the handlers of backend/routes/auth.js pass them into `where` clauses without checking their type (:172-183 for Activate). MySQL compares a VARCHAR column with a number by converting the string, so a body `{"email": "...", "code": 0}` matches any stored code that converts to 0, such as "abcde", and the code activates the account with 200 where the model answers 400. Likewise `email: 0` in Activate, which has no truthiness check, finds a user whose e-mail starts with a non-digit. The model assumes every body value is a string.
- Concurrency: the model runs one request at a time, so two simultaneous registrations with one e-mail are not covered. The unique index would catch them.
- UseCaseRoutes.UseCaseStore.Create: does not model the length limits of the `STRING` columns (title, actor). Only nullness is modelled, so an over-long title is stored here where the database could refuse it with 500.
- UseCaseRoutes.UseCaseStore.Update: does not model the same length limits, for the same reason; an over-long title is saved here where the save could fail with 500 after the history entry is written.
- Accounts.RegistrationErrors: counts every character (code point) of the password. express-validator's `isLength` also counts a surrogate pair as one character, but leaves the variation selectors U+FE0E and U+FE0F out of the count. A five-letter password followed by U+FE0F is therefore long enough here and too short in the code.
- Ordering.SortDesc: fixes one order among rows with equal timestamps. The database leaves that order open, so the contract promises only newest-first and a permutation.
- The form's `readOnly` prop, `onCancel` and all rendering. Only the state and the submit decision are modelled.
- Other pages and components (lists, admin pages, history modal, navigation bar, login and registration pages). They call the modelled routes and are not part of this model.
