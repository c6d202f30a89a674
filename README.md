# Role-based access control of a project-management API, in Dafny

This project models the authorization core of an Express project-management API, together with the two middlewares that shape its responses:

- **`Permissions`**. The closed permission registry (sixteen identifier strings). It also holds the static role → permissions table for ADMIN, PROJECT_ADMIN and MEMBER, and the two resolvers `hasPermission` and `checkMultiplePermissions`. `src/utils/permissions.js`.
- **`PermissionMiddleware`**. The gates `checkPermission` and `checkPermissions`. Each reads the caller's global role from `req.user`, then calls `next()` or throws an `ApiError` with 401 or 403. `src/middlewares/permission.middleware.js`.
- **`ValidatorMiddleware`**. `validate`: it calls `next()` when the validator chains reported nothing. Otherwise it answers 422 with one `{ field, message }` per reported error. `src/middlewares/validator.middleware.js`.
- **`ErrorMiddleware`**. The error normaliser `errorHandler`:
  - it starts from a default response object;
  - five classifying branches then overwrite its fields in order: Mongoose validation, cast, duplicate key 11000, JWT and `ApiError`;
  - it deletes the keys whose value is null or undefined;
  - it sends the object with its own `statusCode` as the HTTP status.

  The handler is an imperative `method`. It is proved equal to a reference reading, `Respond`, in which the last matching branch wins. `src/middlewares/error.middleware.js`.
- **`ProjectRoutes`**. The project router as a constant table of nine (method, path, middleware chain) routes, with a function that runs a chain. The proofs show three things. The permission gate runs before validation and the controller. A request without a role is refused with 401 everywhere. For each route, exactly the stated set of known roles is admitted, and every other known role or non-empty unknown role string gets 403 (an empty role string gets 401). A refusal reaches the client through the error handler with the gate's status and message. `src/routes/project.routes.js`.
- **`Json`** and **`Wrappers`**. The JavaScript values these middlewares handle:
  - undefined and null;
  - booleans and integer numbers;
  - strings and arrays;
  - objects as ordered key/value lists.

  They come with truthiness, `||`, property reads and deletion of nullish keys.

The resolvers, gates and `validate` hold no state of their own, so they are modelled as functions. The error handler works step by step on a local object, so it is a method with a loop.

Two facts about the role table as written:
- permissions.js has no startup check that every role-table entry is a registry value. The contracts of `Permissions.PermissionsOf` and `Permissions.HasPermission` prove it of the table as written.
- On the data as written MEMBER ⊆ PROJECT_ADMIN ⊆ ADMIN (`Permissions.RoleHierarchy`).

## Model

| member | source | states |
|---|---|---|
| Permissions.IdInjective | src/utils/permissions.js:3-27 | distinct registry entries have distinct identifier strings |
| Permissions.IdsMembership | src/utils/permissions.js:57-60 | a string lookup in a list of registry identifiers agrees with looking the permission up in the list, in both directions |
| Permissions.RegistryWellFormed | src/utils/permissions.js:3-27 | `Object.values(Permissions)` has sixteen entries, names every permission and holds no duplicate string |
| Permissions.AdminIsSuperuser | src/utils/permissions.js:30 | ADMIN holds every permission, and a string is held by ADMIN exactly when it is a registry value |
| Permissions.PermissionsOf | src/utils/permissions.js:58 | a role outside the table gets the empty list, and every string in any role's list is the identifier of some registry permission |
| Permissions.HasPermission | src/utils/permissions.js:57-60 | a granted string is always the identifier of a registry permission, and a role outside the table is granted nothing |
| Permissions.CheckMultiplePermissions | src/utils/permissions.js:62-66 | `every`: the check holds exactly when `hasPermission` holds for each listed string, and always for the empty list |
| Permissions.UnknownRoleFailsClosed | src/utils/permissions.js:57-60 | a role outside the table falls back to the empty list and holds nothing, and a one-element multiple check fails for it |
| Permissions.HasPermissionMatchesTable | src/utils/permissions.js:29-60 | `hasPermission` on every role × permission pair equals an independent reference table (`Grants`) |
| Permissions.ProjectAdminTable | src/utils/permissions.js:31-45 | PROJECT_ADMIN holds a permission exactly when it is not create_project, delete_project or manage_users |
| Permissions.MemberTable | src/utils/permissions.js:46-54 | MEMBER holds exactly view project/task/note/users, update task, and create/update note |
| Permissions.RoleHierarchy | src/utils/permissions.js:29-55 | MEMBER ⊆ PROJECT_ADMIN ⊆ ADMIN on the data as written, and both inclusions are strict |
| Permissions.CuratedDenials | src/utils/permissions.js:31-54 | MEMBER lacks delete/create project and project-member management. PROJECT_ADMIN lacks create/delete project and user management |
| Permissions.CheckEmptyIsVacuous | src/utils/permissions.js:62-66 | `every` over an empty list holds for every role |
| Permissions.CheckNoPartialCredit | src/utils/permissions.js:62-66 | one missing permission makes the multiple check fail |
| Permissions.CheckOrderIrrelevant | src/utils/permissions.js:62-66 | the multiple check depends only on which permissions are listed, not on their order or repetition |
| Permissions.CheckComposes | src/utils/permissions.js:62-66 | the one-element check is `hasPermission`, and the check of a concatenation is the conjunction of the checks |
| PermissionMiddleware.CheckPermission | src/middlewares/permission.middleware.js:5-19 | the outcome is 401, 403 or next. 401 exactly when the role is missing or falsy. 403 exactly when a role is present but lacks the permission. next exactly when the role holds it |
| PermissionMiddleware.CheckPermissions | src/middlewares/permission.middleware.js:21-35 | 401 exactly when the role is missing. 403 exactly when some listed permission is not held. next exactly when every listed permission is held |
| PermissionMiddleware.MissingRoleIsUnauthorized | src/middlewares/permission.middleware.js:7-11 | without `req.user`, without a role, or with an empty role string, both gates throw 401 "Unauthorized access" whatever they require |
| PermissionMiddleware.EmptyRequirementPasses | src/middlewares/permission.middleware.js:21-35 | with a role present, `checkPermissions([])` calls next |
| PermissionMiddleware.SingletonGateAgrees | src/middlewares/permission.middleware.js:5-35 | `checkPermissions([p])` and `checkPermission(p)` give the same outcome for every request |
| PermissionMiddleware.PluralGateIsConjunction | src/middlewares/permission.middleware.js:21-35 | the plural gate passes exactly when a role is present and every singular gate for its permissions passes |
| PermissionMiddleware.UnknownRoleIsForbidden | src/middlewares/permission.middleware.js:13-15 | a non-empty role string outside the table is refused with 403 and the fixed message |
| PermissionMiddleware.AdminPassesEveryGate | src/middlewares/permission.middleware.js:29-33 | ADMIN passes every gate built from registry permissions |
| ValidatorMiddleware.ExtractedErrors | src/middlewares/validator.middleware.js:10-13 | the mapped list has one `{ field: path, message: msg }` entry per reported error, in the reported order |
| ValidatorMiddleware.Validate | src/middlewares/validator.middleware.js:4-21 | `validate` calls next exactly when no error was reported |
| ValidatorMiddleware.RejectionBody | src/middlewares/validator.middleware.js:16-20 | the 422 body is a well-formed object with no repeated key |
| ValidatorMiddleware.RejectedRequest | src/middlewares/validator.middleware.js:9-20 | for reported errors the answer is HTTP 422, with body statusCode 422 and message "Validation failed". Every error has an entry, in order. The body has no `success` key |
| ErrorMiddleware.ObjectValues | src/middlewares/error.middleware.js:23 | `Object.values`: an object's values in key order, an array's elements, one one-character string per character of a string, nothing for a boolean or number; only an object or array can yield null or undefined |
| ErrorMiddleware.FirstKey | src/middlewares/error.middleware.js:44 | `Object.keys(v)[0]`: present exactly when the object, array or string is non-empty; for an object it is one of its keys, for an array or string it is "0"; a boolean or number has none |
| ErrorMiddleware.Winning | src/middlewares/error.middleware.js:11-68 | the fields the five sequential branches leave: an ApiError's own statusCode, message and errors; otherwise three truthy values, with status 401 for a JWT error, then 409 for a duplicate key, then 400 for a cast or validation error |
| ErrorMiddleware.Respond | src/middlewares/error.middleware.js:11-79 | the handler throws exactly when a property read it makes hits null or undefined; otherwise the sent object holds no null or undefined value |
| ErrorMiddleware.InnerFieldErrors | src/middlewares/error.middleware.js:23-26 | one `{ field: e.path, message: e.message }` per inner validation error, in `Object.values` order |
| ErrorMiddleware.ResponseObject | src/middlewares/error.middleware.js:11-17 | the response object literal has distinct keys, and `stack` appears only in development |
| ErrorMiddleware.StripNullish | src/middlewares/error.middleware.js:71-73 | after the deletion pass no key holds null or undefined |
| ErrorMiddleware.StripNullishReads | src/middlewares/error.middleware.js:71-73 | reading any key after the deletion pass gives the old value when it was not nullish, and undefined otherwise |
| ErrorMiddleware.ErrorHandler | src/middlewares/error.middleware.js:4-79 | the step-by-step handler (defaults, five overriding branches, deletion loop, send) computes exactly the last-matching-branch reading `Respond`. This includes the TypeError the property reads can throw |
| ErrorMiddleware.RemoveNullish | src/middlewares/error.middleware.js:71-73 | the deletion loop leaves exactly the non-nullish entries, in their order |
| ErrorMiddleware.ResponseShape | src/middlewares/error.middleware.js:11-79 | every sent response has these properties. The HTTP status is the body's statusCode. statusCode, message and errors are the winning branch's values with nullish ones removed. success is false. stack appears only in development. No key holds null or undefined |
| ErrorMiddleware.DefaultResponse | src/middlewares/error.middleware.js:11-17 | an unclassified error keeps its truthy statusCode, message and errors. Otherwise they become 500, "Internal Server Error" and [] |
| ErrorMiddleware.ValidationResponse | src/middlewares/error.middleware.js:20-27 | a Mongoose validation error gives 400 "Validation Error", with one entry per inner error in order |
| ErrorMiddleware.CastResponse | src/middlewares/error.middleware.js:30-37 | a cast error gives 400 "Invalid ID Format", with a single entry for `err.path` |
| ErrorMiddleware.DuplicateResponse | src/middlewares/error.middleware.js:40-47 | error code 11000 gives 409 "Duplicate Entry", with one entry naming the first key of `keyPattern` in its field and message |
| ErrorMiddleware.JwtResponse | src/middlewares/error.middleware.js:50-57 | a JWT error gives 401 "Invalid or Expired Token" with one token entry. The entry says "Token has expired" exactly when the error name is TokenExpiredError |
| ErrorMiddleware.ApiErrorOverrides | src/middlewares/error.middleware.js:60-68 | an ApiError sends its own statusCode, message and errors, whatever its code or name. Nullish ones are dropped, and success is false |
| ErrorMiddleware.LastBranchWins | src/middlewares/error.middleware.js:40-57 | a duplicate-key error that also has a JWT error name is answered 401: the later branch overrides the earlier |
| ErrorMiddleware.ThrowsOnlyOnNullishReads | src/middlewares/error.middleware.js:23-47 | the handler throws exactly when `Object.values(err.errors)`, an inner `.path` read or `Object.keys(err.keyPattern)` meets null or undefined |
| ProjectRoutes.PatternsDistinct | src/routes/project.routes.js:25-71 | the four path patterns `/`, `/:projectId`, `/:projectId/members` and `/:projectId/members/:userId` are distinct strings |
| ProjectRoutes.Run | src/routes/project.routes.js:25-71 | running a chain denies only with 401 or 403, answers 422 only when the chain holds `validate` and errors were reported, hands over only to a controller of the chain, and leaves the request unhandled only when the chain has no controller |
| ProjectRoutes.Lookup | src/routes/project.routes.js:25-71 | a found route is in the table with that method and path, and no route is found exactly when none is registered for it |
| ProjectRoutes.LookupIn | src/routes/project.routes.js:25-71 | a route found for (method, path) is in the table and carries that method and path; none is found only when no entry has them |
| ProjectRoutes.RunMiddle | src/routes/project.routes.js:28-33 | after the gate, a chain of validator stages and `validate` ends in 422 exactly when it contains `validate` and errors were reported. Otherwise it reaches the controller |
| ProjectRoutes.GateRunsFirst | src/routes/project.routes.js:25-71 | a refusing gate denies the request before validation and the controller run. An admitting gate hands the request to validation, then the controller |
| ProjectRoutes.TableWellFormed | src/routes/project.routes.js:25-71 | every route's chain is a gate, then validation stages, then one controller, and no (method, path) is registered twice |
| ProjectRoutes.LookupFinds | src/routes/project.routes.js:25-71 | the router dispatches each registered (method, path) to its own chain |
| ProjectRoutes.GateByTable | src/middlewares/permission.middleware.js:13-15 | for a known-role caller a gate passes exactly when the reference table grants all it asks for. Otherwise it throws 403 |
| ProjectRoutes.RouteAdmits | src/routes/project.routes.js:25-71 | on every route a known-role caller is admitted exactly when the reference table grants the route's permissions. Otherwise it gets 403 |
| ProjectRoutes.ListProjectsPolicy | src/routes/project.routes.js:27 | GET / admits ADMIN, PROJECT_ADMIN and MEMBER, and answers 403 to any other role string |
| ProjectRoutes.CreateProjectPolicy | src/routes/project.routes.js:28-33 | POST / admits only ADMIN |
| ProjectRoutes.GetProjectPolicy | src/routes/project.routes.js:37 | GET /:projectId admits the three known roles only |
| ProjectRoutes.UpdateProjectPolicy | src/routes/project.routes.js:38-43 | PUT /:projectId admits ADMIN and PROJECT_ADMIN only |
| ProjectRoutes.DeleteProjectPolicy | src/routes/project.routes.js:44-47 | DELETE /:projectId admits only ADMIN |
| ProjectRoutes.ListMembersPolicy | src/routes/project.routes.js:51-54 | GET /:projectId/members admits the three known roles only |
| ProjectRoutes.AddMemberPolicy | src/routes/project.routes.js:55-60 | POST /:projectId/members admits ADMIN and PROJECT_ADMIN only |
| ProjectRoutes.UpdateMemberRolePolicy | src/routes/project.routes.js:64-67 | PUT /:projectId/members/:userId admits ADMIN and PROJECT_ADMIN only |
| ProjectRoutes.RemoveMemberPolicy | src/routes/project.routes.js:68-71 | DELETE /:projectId/members/:userId admits ADMIN and PROJECT_ADMIN only |
| ProjectRoutes.UnauthenticatedDeniedEverywhere | src/routes/project.routes.js:25-71 | a request without a role is denied with 401 on every route, whatever validation would report |
| ProjectRoutes.DenialResponse | src/middlewares/permission.middleware.js:9-15 | a gate's 401 or 403 ApiError leaves the error handler with that status as HTTP status, the gate's message and success false |

## Left out

- Logging: `console.error(err)` in development is output only and is not modelled. The environment is the `development` parameter.
- `res.setHeader`, `res.status(...).json(...)` and `next()` are not modelled. The model returns the status and the object that would be sent.
  - An undefined statusCode passed to `res.status` is not modelled; Express would reject it.
  - `JSON.stringify` dropping undefined values nested inside `errors` is not modelled either.
- Numbers are unbounded integers. Fractions, NaN and `-0` are not modelled.
- ErrorMiddleware.ObjectValues: a string's values are its Dafny characters, one per Unicode scalar value, where JavaScript yields one per UTF-16 code unit.
- An object's entries are taken to be in JavaScript key order already. Integer-like keys sorting first is not modelled.
- Inherited properties are not modelled. A role string such as "constructor" would read a prototype member through `RolePermissions[userRole]`; the model treats every role outside the table as holding nothing.
- The strings of the three known roles live in a constants file that is not part of this model. They are assumed non-empty and pairwise distinct, and the name carried by `Other` is assumed to be none of the three: `Other("admin")` stands for a string outside the table, not for ADMIN.
- `ApiError` (src/utils/api-error.js) is not part of this model. A thrown gate error is given by its status and message, and its `errors`, `stack` and `name` are left arbitrary. It is assumed to carry no `code`, `path` or `keyPattern` (all undefined), so the duplicate-key branch neither applies to it nor throws on it.
- The project-scoped membership check `validateProjectPermission` lives in the authentication middleware, which is not part of this model; nor is the not-found answer for a missing project.
- `verifyJWT` is modelled only by the `req.user` it leaves behind. Token parsing is not modelled.
- `asyncHandler` is assumed to forward a thrown error to `errorHandler`.
- The validator chains (express-validator) are modelled only by the list of errors they report to `validate`. Their rules are not modelled.
- Controllers, the task and note routers, and the mailer are not modelled. A chain ends in `Handled(controller)`.
- Express's own 404 for an unregistered method and path is not modelled; `Lookup` gives `None` there.
- ErrorMiddleware.ErrorHandler deletes keys by building the list of kept entries. It does not delete in place on a shared object.
- ErrorMiddleware.ErrorHandler writes the ApiError branch's replacement of the whole object as reassignment of the three fields. Both give the same keys in the same order.
- Concurrency and asynchrony of the middlewares are not modelled. Each request is evaluated on its own.
