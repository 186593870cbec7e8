# Device/user management: validated, authenticated device procedures and user-list paging

This project models in Dafny the small self-contained logic of a device/user
management web application:

- the zod input schemas of the device procedures (`deviceSchema`,
  `deviceCreateSchema`, `deviceUpdateSchema`) as predicates over a record
  whose keys are each absent or a string, with parsers that keep only the
  schema's own keys (`DeviceSchema.dfy`);
- the `isAuthed` middleware behind `authedProcedure` as a function of the
  request context and the downstream handler `next`, returning its outcome,
  the entries it logged and the contexts it passed to `next` (`Trpc.dfy`);
- the device router: six procedures, each running `isAuthed`, then input
  validation, then one `DeviceService` call inside a `try`/`catch` that turns a
  synchronous throw into a fixed error. The service is a collaborator whose
  outcome per call is an input: it returns, throws synchronously, or returns a
  rejected promise. The handlers `return` the promise without `await`, so a
  rejection escapes the `catch` and reaches the caller with its own reason
  (`DeviceRouter.dfy`);
- the user list page: the page number taken from the query, the page sent to
  the server, the table caption, the Previous/Next disabled guards and links,
  and `onDeleteClick`, an imperative method on a class holding the trace of
  collaborator calls and of `console.error` entries (`UserPage.dfy`).
  `${n}` of an integer is modelled by `Decimal.IntToString` (`Decimal.dfy`).

Three points of the code's behaviour that the model keeps as written:

- The procedures are built as `authedProcedure.input(schema)`, and the RPC
  library runs middlewares in the order they are added, so authentication
  runs before validation. An unauthenticated call with bad input is therefore
  refused as `UNAUTHORIZED`, not as a validation error.
- On deleting one's own account, a failing step is caught and written to
  `console.error`; it does not surface to the caller as an error.
- `getDeviceToken` translates a throw into `INTERNAL_SERVER_ERROR` with the
  message "No device with id '<id>'", the same message `getById` uses with
  `NOT_FOUND`.

## Model

| member | source | states |
|---|---|---|
| `DeviceSchema.DeviceSchemaAccepts` | server/src/server/schema/device.ts:3-5 | `deviceSchema` as a predicate; `DeviceSchemaAcceptsAnyId` states that it accepts exactly the inputs with an `id` |
| `DeviceSchema.CreateSchemaAccepts` | server/src/server/schema/device.ts:7-10 | `deviceCreateSchema` as a predicate; `CreateValidIff` states it as both identifiers present with 1 to 255 characters |
| `DeviceSchema.UpdateSchemaAccepts` | server/src/server/schema/device.ts:12-16 | `deviceUpdateSchema` as a predicate; `UpdateFieldsIndependent`, `CreateExtendsToUpdate` and `FullUpdateIsCreate` relate it to the create schema |
| `DeviceSchema.ParseDevice` | server/src/server/schema/device.ts:3-5 | a parse succeeds exactly when `deviceSchema` accepts, and yields the input's `id` |
| `DeviceSchema.ParseCreate` | server/src/server/schema/device.ts:7-10 | a parse succeeds exactly when `deviceCreateSchema` accepts, and yields the input's two identifiers |
| `DeviceSchema.ParseUpdate` | server/src/server/schema/device.ts:12-16 | a parse succeeds exactly when `deviceUpdateSchema` accepts, and keeps absent identifiers absent |
| `DeviceSchema.DeviceSchemaAcceptsAnyId` | server/src/server/schema/device.ts:3-5 | every string `id` is accepted, empty or of any length; a missing `id` is refused |
| `DeviceSchema.CreateValidIff` | server/src/server/schema/device.ts:7-10 | a create input is valid iff both identifiers are present with 1 to 255 characters |
| `DeviceSchema.CreateRejectsEmptyBuilding` | server/src/server/schema/device.ts:8 | `{buildingId: "", roomId: "R1"}` is refused |
| `DeviceSchema.CreateRejectsOverlong` | server/src/server/schema/device.ts:8-9 | an identifier longer than 255 characters makes a create input invalid |
| `DeviceSchema.UpdateIdOnly` | server/src/server/schema/device.ts:12-16 | an update carrying only `id` is valid and sets neither identifier |
| `DeviceSchema.UpdateFieldsIndependent` | server/src/server/schema/device.ts:14-15 | in an update, dropping an absent field changes nothing, and a present field must meet the create bound |
| `DeviceSchema.CreateExtendsToUpdate` | server/src/server/schema/device.ts:7-16 | a valid create input extended with an `id` is a valid update setting both identifiers |
| `DeviceSchema.FullUpdateIsCreate` | server/src/server/schema/device.ts:7-16 | a valid update setting both identifiers holds a valid create input |
| `Trpc.IsAuthed` | server/src/server/trpc.ts:55-69 | without a session user: `UNAUTHORIZED`, one error entry "Unauthorized access", `next` never called; with one: `next` called once with the context extended by that user, its result returned, nothing logged |
| `Trpc.UnauthenticatedIgnoresNext` | server/src/server/trpc.ts:56-62 | without a session user the run is the same whatever `next` is |
| `Trpc.AuthenticatedIsTransparent` | server/src/server/trpc.ts:64-68 | with a session user the run depends on `next` only through its result on the extended context |
| `DeviceRouter.SchemaAccepts` | server/src/server/routers/device.ts:8-58 | binds each procedure to the schema it declares with `.input(...)`: the list parse, `deviceSchema` for `getById`/`delete`/`getDeviceToken`, `deviceCreateSchema` for `create`, `deviceUpdateSchema` for `update`; `ServiceCallFor` and `Body` state its effect |
| `DeviceRouter.ServiceCallFor` | server/src/server/routers/device.ts:8-60 | a service call is built exactly when the procedure's declared schema accepts the input, and its arguments are the parsed input (for `create` with the user's id as owner, for `list` the `deviceListSchema` parse) |
| `DeviceRouter.Body` | server/src/server/routers/device.ts:8-67 | validation then the handler: no service call and `BAD_REQUEST` exactly when the schema refuses, otherwise exactly one call |
| `DeviceRouter.CaughtError` | server/src/server/routers/device.ts:11-66 | each `catch` throws `NOT_FOUND` for `getById` and `INTERNAL_SERVER_ERROR` for every other procedure, always with a message; `SyncThrowTranslated` gives the messages |
| `DeviceRouter.Guard` | server/src/server/routers/device.ts:9-16 | a returned value resolves as itself, only a synchronous throw becomes the caught error, and a rejection escapes with its own reason |
| `DeviceRouter.Call` | server/src/server/routers/device.ts:7-68 | at most one service call; the log holds the one "Unauthorized access" entry exactly for a call without a session user, which alone fails with `UNAUTHORIZED` |
| `DeviceRouter.UnauthenticatedNeverReachesService` | server/src/server/routers/device.ts:8-58 | every procedure refuses an unauthenticated call with `UNAUTHORIZED` and the log entry, and makes no service call |
| `DeviceRouter.InvalidInputNeverReachesService` | server/src/server/routers/device.ts:8-58 | an authenticated call with input its schema refuses is a bad request with no service call |
| `DeviceRouter.ServiceReachedOnlyWhenAllowed` | server/src/server/routers/device.ts:7-68 | the service is called iff the call is authenticated and valid, at most once, and on the method belonging to the procedure |
| `DeviceRouter.CreatePassesOwner` | server/src/server/routers/device.ts:28-30 | `create` passes the parsed identifiers and the authenticated user's id as owner |
| `DeviceRouter.ListPassesParsedQuery` | server/src/server/routers/device.ts:8-10 | `list` passes the service the value `deviceListSchema` parsed, not the raw parameters |
| `DeviceRouter.IdArgumentsPassed` | server/src/server/routers/device.ts:18-60 | `getById`, `update`, `delete` and `getDeviceToken` pass the parsed input to their service method |
| `DeviceRouter.SuccessPassesThrough` | server/src/server/routers/device.ts:10-60 | a service result reaches the caller unchanged, with nothing logged |
| `DeviceRouter.AsyncRejectEscapes` | server/src/server/routers/device.ts:10-60 | a rejected service promise is not caught; its own reason reaches the caller |
| `DeviceRouter.SyncThrowTranslated` | server/src/server/routers/device.ts:9-66 | a synchronous throw becomes `NOT_FOUND` for `getById` and `INTERNAL_SERVER_ERROR` elsewhere, each with its fixed message |
| `DeviceRouter.ThrownFaultHidden` | server/src/server/routers/device.ts:11-16 | services that differ only in what they throw give the caller the same reply |
| `Decimal.IntToString` | server/src/pages/user/index.tsx:111 | a non-empty spelling that starts with a minus exactly for negatives and with a digit otherwise |
| `Decimal.IntToStringRoundTrip` | server/src/pages/user/index.tsx:111 | the decimal spelling of an integer reads back as that integer |
| `Decimal.IntToStringInjective` | server/src/pages/user/index.tsx:111 | different integers are spelled differently |
| `UserPage.QueryParamPage` | server/src/pages/user/index.tsx:37-40 | NaN (an absent parameter among others) gives page 1, any number gives itself |
| `UserPage.RequestedPage` | server/src/pages/user/index.tsx:42 | the page sent is the larger of 1 and the query page |
| `UserPage.PageSentIsPositive` | server/src/pages/user/index.tsx:37-42 | the page sent to `user.list` is at least 1, and equal to the query page when that is at least 1 |
| `UserPage.PrevDisabled` | server/src/pages/user/index.tsx:168 | the Previous guard; `LinksWithinRange` and `PrevLeadsWithinRange` state when it holds and where the enabled link leads |
| `UserPage.NextDisabled` | server/src/pages/user/index.tsx:184 | the Next guard; `LinksWithinRange` and `NextLeadsWithinRange` state when it holds and where the enabled link leads |
| `UserPage.PrevHref` | server/src/pages/user/index.tsx:166 | the Previous link `?page=<page-1>`; `LinksRoundTrip` states that it reads back as page-1 |
| `UserPage.NextHref` | server/src/pages/user/index.tsx:182 | the Next link `?page=<page+1>`; `LinksRoundTrip` states that it reads back as page+1 |
| `UserPage.LinksWithinRange` | server/src/pages/user/index.tsx:166-184 | for 1 ≤ page ≤ totalPages, Previous is enabled iff page > 1 and Next iff page < totalPages |
| `UserPage.NextLeadsWithinRange` | server/src/pages/user/index.tsx:182-184 | an enabled Next link leads to a page in 1..totalPages |
| `UserPage.PrevLeadsWithinRange` | server/src/pages/user/index.tsx:166-168 | an enabled Previous link leads to a page in 1..totalPages, except from page 0, where it leads to -1 |
| `UserPage.LinksRoundTrip` | server/src/pages/user/index.tsx:166-184 | the Previous and Next links, read back through the query, name page-1 and page+1 |
| `UserPage.Caption` | server/src/pages/user/index.tsx:102-111 | "No users" for the zero bucket, "One user" for the one bucket, the count followed by " users" otherwise |
| `UserPage.Classify` | server/src/pages/user/index.tsx:102-110 | the buckets are exactly count 0, count 1, and every other count |
| `UserPage.CaptionShowsCount` | server/src/pages/user/index.tsx:111 | a plural caption spells the count, which reads back from it |
| `UserPage.CaptionInjective` | server/src/pages/user/index.tsx:102-111 | different counts never share a caption |
| `UserPage.PluralCaptionDiffers` | server/src/pages/user/index.tsx:102-111 | no plural caption reads "No users" or "One user" |
| `UserPage.Plan` | server/src/pages/user/index.tsx:54-62 | exactly one delete request, followed, for the session's own account only, by sign-out and then sign-in |
| `UserPage.Started` | server/src/pages/user/index.tsx:53-65 | the awaited steps actually started; `StartedIsPrefix` states it is the plan up to and including the first rejection |
| `UserPage.StartedIsPrefix` | server/src/pages/user/index.tsx:53-65 | awaited steps run in order and stop at the first rejection; all run and resolve iff every step resolves |
| `UserPage.DeleteComesFirst` | server/src/pages/user/index.tsx:55-57 | the delete request is always the first call |
| `UserPage.SelfDeleteOrder` | server/src/pages/user/index.tsx:54-62 | sign-out iff own account and delete succeeded; sign-in iff sign-out also succeeded; the calls are exactly one delete, then those, in that order |
| `UserPage.FailureLoggedIff` | server/src/pages/user/index.tsx:53-65 | the error is logged exactly when a step that ran rejected |
| `UserPage.UserPageEffects.OnDeleteClick` | server/src/pages/user/index.tsx:51-68 | appends the started steps of the plan to the call trace and, when one rejected, one `console.error` entry; never fails itself |

## Left out

- Rendering: the JSX table, dialogs, skeleton rows and their width classes, dates formatted with `toLocaleString`, and `clsx` class strings. They are presentation only.
- Number width: `page`, `page ± 1`, `totalPages` and `totalCount` are IEEE doubles in the source, exact only up to 2^53; the model uses unbounded integers. `Decimal.IntToString` follows `${n}` only below 10^21 in magnitude; larger numbers print in exponent form (`${1e21}` is "1e+21"), which is not modelled.
- `Number(router.query.page)`: the model takes its result as an optional integer (none for NaN). Fractions, infinities, `-0` and the string forms `Number` accepts are floating-point behaviour left out. The empty parameter `?page=` gives 0, which the caller passes as `Some(0)`.
- `deviceListSchema` is imported by the router but not defined in `server/src/server/schema/device.ts`. Its parse of the `list` input is a parameter: it refuses the input or yields the query handed to `DeviceService.list`. What that parse keeps, drops or defaults is not modelled.
- `server/src/server/procedures/authed.ts`, from which the router imports `authedProcedure`, is not part of this model. The router is modelled on the `isAuthed` middleware of `server/src/server/trpc.ts`.
- Validation error details: a schema violation is modelled as `BAD_REQUEST` without zod's field-level messages. A key holding a non-string value is not modelled; unknown keys are dropped by parsing.
- String lengths are counted in Dafny characters. zod counts UTF-16 code units, which differ for characters outside the Basic Multilingual Plane.
- `DeviceService`, the dependency-injection container, next-auth and the RPC library are collaborators. Their behaviour is an input to the model. How the library itself reports an escaped rejection to the client is not modelled.
- The server-wide `onError` hook that logs internal errors (`server/src/pages/api/trpc/[trpc].ts`) is not part of this model.
- `UserPage.UserPageEffects.OnDeleteClick`: the `console.error` entry holds only the message "Failed to delete user"; the caught error object logged beside it is not modelled, because a step's rejection carries no value in the model.
- `onDeleteClick`'s list invalidation in the mutation's `onSuccess`, toasts and query-cache refetching are UI side effects. Concurrency between promises is left out; each awaited call is modelled as resolving or rejecting.
- The user-creation page and the device update form are form wiring. Their schema `createUserSchema` is not part of this model. The seeding scripts and the test-runner configuration are I/O and tooling.
