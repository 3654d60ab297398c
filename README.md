# shop_server: user and auth core in Dafny

This project models the request logic of `shop_server`, an Express and Prisma
back end, and proves properties of that model. It covers the following parts:

- **Routes.** Registration and login (`src/routes/auth.ts`), the
  administrator's user routes (`src/routes/admin.ts`) and the older
  `/api/users` router (`src/routes/user.ts`).
- **Schemas.** The request schemas in `src/schemas/user.ts` and
  `src/schemas/common.ts`, and the configuration schema in `src/config/env.ts`.
- **Middleware.** The decision logic of `validate`, `requireAdmin`,
  `errorHandler`, the CORS origin callback, `requestLogger` and
  `validateResponse`.

Modules, one file each:

- `Wrappers`, `Json`, `Strings`: the `Option`/`Result` types, JSON values
  (`undefined` is an absent `Option`), and `split`/`join`/decimal text with
  their round trips.
- `Zod`: the parts of zod 4 the schemas use. That covers strings, minimum
  lengths, format checks, optional fields, defaults, enums, `coerce.number`,
  `.int().positive()` and objects that strip unknown keys. Each part states
  exactly which input it accepts and what it outputs. Issues are reported in
  field order.
- `Http`: requests, replies and errors. A `Request` is a class whose body,
  params and query `validate` overwrites.
- `UserSchemas`, `CommonSchemas`, `EnvConfig`: the schemas. Each one states
  when it accepts its input and the exact output it produces.
- `Validate`, `RequireAdmin`, `ErrorHandler`, `Cors`, `RequestLogger`,
  `ValidateResponse`: the middleware.
- `UserStore`: the Prisma `user` table. `UserTable` is a class holding the
  rows and the next id. Pure functions specify each store call. The table
  invariant says that ids are positive, increase along the rows and stay below
  the next id, and that emails are unique. Every store call that changes the
  table preserves that invariant.
- `AuthRoutes`, `AdminRoutes`, `UserRoutes`: each route method runs
  `validate(schema)` and then the handler against the table. Each states the
  answer and the new table.

Hashing, password comparison and token signing are function-valued
parameters. The email, URL and UUID format checks are fields of a `Formats`
value. The database's availability is the table's `outage` field.

## Model

| member | source | states |
|---|---|---|
| Strings.SplitJoin | src/middleware/cors.ts:10 | splitting a separator-joined list of separator-free pieces gives the pieces back |
| Strings.JoinSplit | src/middleware/cors.ts:10 | joining the pieces of a split gives the original string back |
| Strings.JsLength | src/schemas/user.ts:7-8 | JavaScript's `length`: between the number of characters and twice it |
| Strings.JsLengthOfBmp | src/schemas/user.ts:7-8 | inside the Basic Multilingual Plane, `length` is the number of characters |
| Zod.String | src/schemas/user.ts:6 | `z.string()` accepts exactly strings, unchanged; anything else gets one invalid_type issue naming what it received |
| Zod.Object | src/schemas/user.ts:5 | `z.object` accepts exactly objects; anything else gets an issue. The schemas build their output from the declared keys only, so unknown keys are dropped |
| Zod.NumberOf | src/schemas/user.ts:15 | `Number(j)`: null is 0, a boolean 1 or 0, a number itself, a digit string its decimal value, objects NaN; an array goes through its comma-joined text, so `[]` is 0, two or more elements are NaN, and one element is the number of that element's text |
| Zod.Coerce | src/schemas/user.ts:15 | `z.coerce.number()` turns undefined into NaN and any present value into its `Number` |
| Strings.DecimalRoundTrip | src/config/env.ts:5-8 | the value of the decimal text of n is n |
| Zod.MinLength | src/schemas/user.ts:6-8 | a value passes `z.string().min(n)` iff it is a string whose JavaScript length (UTF-16 code units) is ≥ n; a string that is too short gets exactly one too_small issue with the schema's message, anything else exactly one invalid_type issue "expected string" |
| Zod.Optional | src/schemas/user.ts:18 | an absent field is accepted as absent; a present one must pass the inner check |
| Zod.Default | src/config/env.ts:4 | an absent field takes the default; a present one must pass the inner check |
| Zod.Enum | src/schemas/common.ts:15-16 | accepted iff the value is a string among the options |
| Zod.PositiveInt | src/schemas/user.ts:15 | accepted iff the coerced value is an integer > 0; a number ≤ 0 gets exactly one too_small issue with the schema's message, a value that coerces to NaN exactly one invalid_type issue "expected number, received NaN" |
| Zod.Both | src/schemas/user.ts:13-20 | an object succeeds iff every field does; issues are concatenated in field order |
| UserSchemas.CreateUserSchema | src/schemas/user.ts:4-10 | accepted iff email passes the email check, name has a JavaScript length ≥ 2 and password ≥ 8 (UTF-16 code units); the output body holds exactly email, name and password |
| UserSchemas.CreateUserDropsUnknownKeys | src/schemas/user.ts:5-9 | a validated register body never carries `role` or `id` |
| UserSchemas.UpdateUserSchema | src/schemas/user.ts:13-20 | accepted iff params.id coerces to a positive integer and name is absent or has a JavaScript length ≥ 2; the output holds the numeric id and at most a name |
| UserSchemas.UpdateMeSchema | src/schemas/user.ts:23-27 | accepted iff name is absent or has a JavaScript length ≥ 2; only the body is checked and the params are left as they were |
| UserSchemas.GetUserSchema | src/schemas/user.ts:30-34 | accepted iff params.id coerces to a positive integer; the output params hold that number |
| UserSchemas.LoginSchema | src/schemas/user.ts:36-41 | accepted iff email passes the email check and password has a JavaScript length ≥ 8 |
| UserSchemas.AstralNameAccepted | src/schemas/user.ts:7 | a name of one character outside the Basic Multilingual Plane has length 2 and is accepted |
| UserSchemas.CreateUserJson | src/schemas/user.ts:44 | the handler reads back exactly the input the schema produced |
| UserSchemas.IdPathAccepted | src/schemas/user.ts:32 | a positive id written in the path passes `getUserSchema` as that number |
| CommonSchemas.PaginationSchema | src/schemas/common.ts:4-9 | page and limit are optional strings turned into numbers, defaulting to 1 and 10 |
| CommonSchemas.PaginationDefaults | src/schemas/common.ts:6-7 | an empty query gives page 1 and limit 10 |
| CommonSchemas.FilterSchema | src/schemas/common.ts:12-18 | search is optional; sortBy is one of name, createdAt, updatedAt (default createdAt); order is asc or desc (default desc) |
| CommonSchemas.IdParamSchema | src/schemas/common.ts:21-25 | accepted iff params.id is a string the UUID check accepts |
| EnvConfig.Port | src/config/env.ts:5-9 | PORT is accepted iff absent or all digits; it becomes its decimal value, or 1480 when absent |
| EnvConfig.ParseEnv | src/config/env.ts:3-21 | parsing succeeds iff NODE_ENV is a known name or absent, PORT is digits or absent, DATABASE_URL is a URL, CORS_ORIGIN is absent or a URL, and JWT_SECRET has a JavaScript length ≥ 32; the defaults are development, 1480, 1d, shop-api and shop-backend |
| EnvConfig.EnvRoundTrip | src/config/env.ts:3-21 | every admissible configuration is read back unchanged from its variables |
| EnvConfig.ShortSecretRejected | src/config/env.ts:12 | a JWT_SECRET whose JavaScript length is under 32 fails parsing with that issue, whatever else is set |
| Validate.Validate | src/middleware/validate.ts:11-38 | the schema sees exactly body, params and query; on success each part is replaced only when the schema produced it, then next; a ZodError answers 400 and leaves the request as it was; other errors go to next(error) |
| Validate.Details | src/middleware/validate.ts:30-33 | one entry per issue, in issue order, with the joined path and the message unchanged |
| Validate.PathTextSplits | src/middleware/validate.ts:31 | the `.`-joined path splits back into its segments when no key holds a dot |
| RequireAdmin.RequireAdmin | src/middleware/requireAdmin.ts:6-13 | proceeds iff the role claim is `admin`; otherwise exactly the 403 answer |
| RequireAdmin.OnlyRoleDecides | src/middleware/requireAdmin.ts:3-8 | the subject claim does not affect the decision |
| ErrorHandler.HandleError | src/middleware/errorHandler.ts:5-35 | status is 400 iff the error is a ZodError, else 500; Prisma known errors get the database message; others get their message, or the fixed one in production |
| ErrorHandler.ProductionHidesMessages | src/middleware/errorHandler.ts:29-34 | in production no error's own message reaches the client |
| Cors.OriginDecision | src/middleware/cors.ts:6-17 | allowed iff there is no origin, no allow-list, or the origin is one of the comma-separated entries; otherwise the CORS error |
| Cors.AllowListMembership | src/middleware/cors.ts:10-13 | for a comma-joined list, exactly its members pass |
| Cors.DeniedOriginAnswer | src/middleware/cors.ts:15 | the refusal, which the cors package hands to `next(err)` and so to errorHandler, is answered 500 with a message hidden only in production |
| RequestLogger.FinishEntry | src/middleware/requestLogger.ts:32-38 | error level iff status ≥ 500, warn iff 400 ≤ status < 500, info iff status < 400, each with its message |
| ValidateResponse.Checked | src/middleware/validateResponse.ts:10-18 | an accepted body is sent parsed; a rejected one is replaced by the fixed error body |
| ValidateResponse.ValidateResponse | src/middleware/validateResponse.ts:6-22 | installs the check and calls next without touching status or sent body |
| ValidateResponse.SingleSchema | src/middleware/validateResponse.ts:12-16 | with one check installed, the sent body is the parsed data or the substitute |
| ValidateResponse.StatusThenJson | src/middleware/validateResponse.ts:10-18 | the status set before `json` is kept whether or not the body is rejected |
| UserStore.InsertSpec | src/routes/auth.ts:21-26 | a create keeps the table invariant, adds exactly the new row under the next id, and leaves every other id as it was |
| UserStore.UpdateSpec | src/routes/admin.ts:50-53 | an update keeps the invariant and changes only the row with that id |
| UserStore.RemoveSpec | src/routes/admin.ts:66-68 | a delete keeps the invariant, removes exactly that id (one row fewer) and keeps every other id |
| UserStore.WithoutPassword | src/routes/admin.ts:20 | the record's fields minus `password`, all others unchanged |
| UserStore.UserTable.Create | src/routes/auth.ts:21-26 | a duplicate email fails with P2002 and an unreachable database fails; otherwise the table becomes the insertion |
| UserStore.UserTable.FindUnique | src/routes/admin.ts:31-33 | the row with that id, or none; an unreachable database fails; nothing changes |
| UserStore.UserTable.FindUniqueByEmail | src/routes/auth.ts:39-41 | the row with that email, or none; an unreachable database fails; nothing changes |
| UserStore.UserTable.FindMany | src/routes/admin.ts:19 | every row in table order; an unreachable database fails; nothing changes |
| UserStore.UserTable.Update | src/routes/admin.ts:50-53 | an absent id fails with P2025 and the table is unchanged; otherwise only that row changes |
| UserStore.UserTable.Delete | src/routes/admin.ts:66-68 | an absent id fails with P2025 and the table is unchanged; otherwise exactly that row is removed |
| AuthRoutes.Register | src/routes/auth.ts:18-29 | stores email, name and hash(password) under the next id and answers 201 with that row minus password; store errors are thrown, not answered |
| AuthRoutes.PostRegister | src/routes/auth.ts:15-30 | a body the schema rejects answers 400 and leaves the table; otherwise as Register |
| AuthRoutes.RegisterStoresHash | src/routes/auth.ts:19-26 | the stored record's password is the hash of the submitted one and its role is user |
| AuthRoutes.DuplicateEmailAnswer | src/routes/auth.ts:21-26 | a taken email leaves the table unchanged and the handler throws P2002; were it passed to errorHandler, the answer would be 500 with the database message |
| AuthRoutes.Login | src/routes/auth.ts:37-67 | unknown email and wrong password give the same 401; compare is consulted only for a found user; success signs {sub, email, role} of the stored user and answers {token, user: {id, name, email}}; the store is only read |
| AuthRoutes.PostLogin | src/routes/auth.ts:33-68 | a body the schema rejects answers 400; otherwise as Login |
| AuthRoutes.LoginBody | src/routes/auth.ts:59-66 | the answer holds only token and user, and user holds only id, name and email |
| AuthRoutes.RegisterThenLogin | src/routes/auth.ts:15-68 | when a password matches its own hash, registering and then logging in with the same password succeeds for the new user |
| AdminRoutes.ListUsers | src/routes/admin.ts:16-23 | 200 with one entry per stored row, in store order, none with a password |
| AdminRoutes.Listing | src/routes/admin.ts:20 | the i-th entry is the i-th row minus its password |
| AdminRoutes.GetUser | src/routes/admin.ts:26-41 | an absent id answers 404 `User not found`; a present one answers 200 with the row minus password |
| AdminRoutes.PatchUser | src/routes/admin.ts:44-57 | only the row with that id takes the validated name; the answer is it minus password; an absent id throws P2025 and changes nothing |
| AdminRoutes.DeleteUser | src/routes/admin.ts:60-80 | removes exactly that id and answers 204 with no body; absent id answers 404; any other store failure 500; never throws |
| AdminRoutes.DeleteThenGet | src/routes/admin.ts:34-37 | after a delete, a get of the same id answers 404 |
| UserRoutes.CreateUser | src/routes/user.ts:14-25 | stores the validated body as is (no hashing) and answers 201 with the full row, password included |
| UserRoutes.GetUser | src/routes/user.ts:28-44 | absent id answers 404 `Пользователь не найден`; present answers 200 with the full row; the table is not changed |
| UserRoutes.PatchUser | src/routes/user.ts:47-61 | only the row with that id takes the validated name and is answered in full; an absent id throws P2025 |
| UserRoutes.CreateThenGet | src/routes/user.ts:14-44 | the created row carries the submitted password in clear, and reading it back gives the same body |

## Behaviour worth knowing

The model follows the code in each case below.

- A second registration with the same email is not answered as a conflict.
  The handler does not catch Prisma's P2002, and under Express 4 the rejected
  promise reaches no error handler: it is an unhandled rejection and the
  request gets no answer from the route. `AuthRoutes.DuplicateEmailAnswer`
  also states what `errorHandler` would answer if the error were passed to
  it: 500 with the database message.
- Emails are stored as submitted. Nothing lower-cases them.
- The administrator's and the older router's PATCH routes have no not-found
  guard. An absent id leaves the handler as Prisma's P2025 error.
- The older router stores the password unhashed and returns it in every
  answer.
- `CORS_ORIGIN` must pass the URL check as a whole, so a comma-separated list
  of several origins may fail the configuration check.

## Left out

- JavaScript `Number`:
  - Conversion is modelled only for digit strings (exact value), the empty
    string (0) and everything else (NaN).
  - Signs, whitespace, decimals, exponents and hexadecimal are not modelled.
  - Precision beyond 2^53 is not modelled; integers are unbounded.
- Zod.NumberOf: among strings, its contract fixes the value of digit strings
  only, as the bullet above explains. Express route params are always
  strings, so the array cases never arise from `req.params`.
- Password hashing and comparison, JWT signing and the email, URL and UUID
  checks are library code. They are parameters of the model. The password
  module is not part of this model.
- zod internals:
  - Issue objects keep only code, path and message.
  - The messages zod itself writes follow its English texts.
  - Extra issue fields (expected, minimum, origin and so on) are not modelled.
- Map key order of JSON objects is not modelled, and neither is the order
  in which `res.json` writes keys.
- Logging and timing:
  - the `logger` calls;
  - the `Date.now()` durations;
  - the incoming-request entry;
  - `requestLogger`'s registration of the `finish` listener and its call to
    `next`.
- Express wiring is not modelled: the routers' mounting order in
  `src/app.ts` and `src/index.ts`, `listen`, and shutdown.
- Applying `requireAdmin` in front of the administrator's routes is not
  modelled. The gate is modelled on its own.
- The order in which middleware is registered is not modelled as code. What
  it implies is:
  - `corsMiddleware` (src/app.ts:18) comes before `errorHandler`
    (src/app.ts:27), and the cors package passes the origin callback's error
    to `next(err)`. A refused origin therefore reaches `errorHandler`, whose
    answer `Cors.DeniedOriginAnswer` states.
  - `src/index.ts:13` mounts the `/api/users` router after `app.ts:27` has
    registered `errorHandler`. An error that router passes on cannot reach
    `errorHandler`; Express's own final handler answers it instead, and that
    handler is not modelled.
  - The auth and admin routers' mount points are not part of this model.
- The async scheduling of handlers is not modelled. A rejected handler
  promise is modelled as a `Thrown` result. Under Express 4 such a promise is
  passed to no error handler at all: it is an unhandled rejection, and the
  route sends no answer. `ErrorHandler.HandleError` states what
  `errorHandler` answers for the errors that are passed to it.
- Rate limiting, helmet, compression, the OpenAPI document and the load
  script are not modelled. Neither is the Prisma client's construction in
  `src/lib/prisma.ts`.
- The Prisma schema is not part of this model:
  - The row fields beyond id, email, name, password and role are an
    optional profile (email_verified, phone, city, avatar).
  - Timestamps are not modelled.
  - Only email uniqueness is enforced.
- The bearer-token middleware and the public-path list are not part of this
  model.
- `src/routes/admin.ts` imports `isPrismaNotFoundError` from
  `src/lib/prisma.ts`, which does not export it. It is taken to mean a known
  request error with code P2025.
- `src/routes/admin.ts` imports the type `GetUserParams` from
  `src/schemas/user.ts`, which does not export it. It is taken to be
  `{ id: number }`.
- Validate.Validate: assumes Express 4, where `req.query` can be assigned
  (`src/middleware/validate.ts:22`). Under Express 5 `req.query` has only a
  getter, so that assignment would throw inside the `try` and reach
  `next(error)`. The Express version is not fixed by the source files.
- Strings are sequences of Unicode scalar values. A JavaScript string holding
  a lone surrogate cannot be represented, so such names, passwords and
  variables are outside the model.
- Concurrency between requests is not modelled. Each route runs alone
  against the table.
