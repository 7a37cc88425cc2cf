# vroom start-up core, modelled in Dafny

This project models the start-up wiring of the vroom web framework (`github.com/deze333/vroom`) and proves properties of it:

- **`auth.Initialize`** checks the cookie session name, then the cookie store id, then parses the cookie max-age with Go's `strconv.Atoi`. It then writes six package variables. The max-age variable is written before the parse error is looked at, so a failed parse still overwrites it.
- **`api_ws.Initialize`** checks the version getter, then the panic handler, for nil. It stores both only when neither is nil.
- **`util.NewID`** is a package counter. `init` resets it to 0 and every call adds one and returns the new value.
- **`api_http.Initialize`** runs seven steps in a fixed order and stops at the first error. The steps are: authentication, the version watcher, the panic-handler check, `reqres`, `api_xhr`, `api_ws`, and the router. The context is remembered only when every step succeeded. The router step turns the handler maps into a sequence of registrations and a route summary. Each HTML page is registered under every one of its synonyms, but gets one summary line. `DeInitialize` stops the version watcher only when there is one.

Modules, one file each:

- `Common`: Go's nil as `Option`, errors as messages, opaque function values as `Ref`, and the range of `int64`.
- `Strconv`: Go's base-10 `strconv.Atoi` for a 64-bit `int`, including its fast path for short strings, its range and syntax errors, and its clamped results.
- `Auth`, `ApiWs`, `Util`: one class per package. The class fields are the package variables. Each method is proved against a pure function of the old state: `Configure` for `Auth` and `ApiWs`, `NextID` for `Util`.
- `Context`: the start-up context, with the fields `api_http/initialize.go` reads.
- `Routes`: the registration mapping as pure functions, and the loops of `Initialize_Router` as methods proved against it. Go visits map keys in an unspecified order, so each map loop returns the order it took as a ghost value. The lemmas state what holds for every order.
- `ApiHttp`: the `api_http` package as a class that also holds the `auth` and `api_ws` packages. Each start-up step is proved against a step function on one `World` value, and `Initialize` against `Startup`.

Go strings are byte strings. Here a string is a `seq<char>` in which each character stands for one byte. The only text the model inspects is the max-age string, which `Atoi` reads as ASCII.

Two behaviours of the code are worth knowing:

- `Atoi` accepts negative values, so `"-5"` is a valid max-age (`Auth.MaxAgeAcceptedIff`, `Auth.ConfigureExamples`).
- Nothing checks that patterns are unique within a group. A repeated synonym gets one registration per occurrence.

## Model

| member | source | states |
|---|---|---|
| Strconv.AtoiSpec | auth/initialize.go:37 | `Atoi` succeeds exactly when the string is an optional sign followed by at least one digit and the number fits int64, and then yields that number. A syntax error yields 0; a range error yields the int64 bound on the number's side. |
| Strconv.Atoi | auth/initialize.go:37 | `strconv.Atoi` with a 64-bit `int` returns what `ParseInt(s, 10, 0)` returns, whether or not it takes the fast path for short strings. |
| Strconv.FastPathAgrees | auth/initialize.go:37 | The fast path `Atoi` takes for strings of 1 to 18 bytes agrees with the general `ParseInt` path on every such input, because 18 digits never overflow. |
| Strconv.ParseIntSpec | auth/initialize.go:37 | `ParseInt` strips one sign, parses the rest as unsigned, and checks the signed int64 range; its errors and values follow from `ParseUint`'s. |
| Strconv.ParseUintSpec | auth/initialize.go:37 | `ParseUint` accepts exactly non-empty digit strings whose value fits 64 bits; it yields 0 on a syntax error and the uint64 maximum on a range error. |
| Strconv.ScanUintSpec | auth/initialize.go:37 | The digit scan continued from a valid prefix succeeds exactly on an all-digit string that fits uint64, with its decimal value; otherwise it gives 0 with a syntax error or the uint64 maximum with a range error. Which error comes first is stated by `AtoiSyntaxFirst` and `AtoiOverflowFirst`. |
| Strconv.ScanFastSpec | auth/initialize.go:37 | The short-string digit loop returns the decimal value exactly when every remaining byte is a digit. |
| Strconv.AtoiExamples | auth/initialize.go:37 | "-5", "+10" and "3600" parse to their values; "", "abc", " 1", "1_0" and "-" are syntax errors with value 0. |
| Strconv.AtoiOverflowFirst | auth/initialize.go:37 | After an optional sign, a run of digits that already exceeds 64 bits makes `Atoi` report a range error with the int64 bound on the side of the sign, whatever bytes follow. |
| Strconv.AtoiSyntaxFirst | auth/initialize.go:37 | After an optional sign, a byte that is not a digit, met while the digits before it still fit uint64, makes `Atoi` report a syntax error with value 0, even if an overflowing run follows. |
| Auth.Configure | auth/initialize.go:25-49 | The error is nil or one of the three messages. A failed call changes at most the max-age, and a max-age that changes is always an int64 (Atoi's failure values are 0 and the int64 bounds). |
| Auth.AuthPackage.Initialize | auth/initialize.go:25-49 | The new package variables and the returned error are exactly `Configure` of the old variables and the five arguments; the listener list is untouched. |
| Auth.AuthPackage.AddListenerDeAuth | api_http/initialize.go:94 | Appends the listener to the de-auth listener list and changes no cookie setting. |
| Auth.EmptySessNameRejected | auth/initialize.go:27-30 | An empty session name is reported, whatever else is wrong, and changes no variable. |
| Auth.EmptyStoreIdRejected | auth/initialize.go:32-35 | With a session name, an empty store id is reported and changes no variable. |
| Auth.MaxAgeAcceptedIff | auth/initialize.go:37-41 | With both names given, the call succeeds exactly when `Atoi` accepts the max-age; otherwise the error is the "maxAge not integer" one. |
| Auth.SuccessStoresArguments | auth/initialize.go:37-47 | On success the name, store id, path and domain hold the arguments verbatim, the store is built from the store id, and the max-age is the number the string denotes. |
| Auth.MaxAgeFailureOverwritesMaxAge | auth/initialize.go:37-41 | On a max-age failure only the max-age variable changes, and it takes `Atoi`'s own failure value: 0 for a syntax error, the int64 bound on the side of the sign for an overflow. |
| Auth.PathAndDomainNotValidated | auth/initialize.go:25-48 | The path and domain never affect whether the call fails, empty ones included. |
| Auth.LastSuccessfulCallWins | auth/initialize.go:43-47 | A successful call leaves the same variables whatever an earlier call stored. |
| Auth.ConfigureExamples | auth/initialize.go:25-48 | Sample calls: ("sess", "abc123", "3600") succeeds with max-age 3600, "abc" fails and stores 0, an empty name fails, and "-5" succeeds. |
| ApiWs.Configure | api_ws/initialize.go:20-35 | The error is nil or one of the two messages. A failed call changes nothing, and after a successful one both callbacks are set. |
| ApiWs.WsPackage.Initialize | api_ws/initialize.go:20-35 | The new variables and the returned error are exactly `Configure` of the old variables and the two arguments. |
| ApiWs.NilVerGetterRejected | api_ws/initialize.go:22-25 | A nil version getter is reported whatever the panic handler is, and changes nothing. |
| ApiWs.NilOnPanicRejected | api_ws/initialize.go:27-30 | A version getter with a nil panic handler is reported, and changes nothing. |
| ApiWs.ConfigureSucceedsIff | api_ws/initialize.go:22-34 | The call succeeds exactly when both arguments are non-nil, and then stores both; on either error both variables keep their values. |
| Util.NextID | util/uuid.go:36-38 | One `atomic.AddInt64(&_lastID, 1)`: the counter plus one, wrapping from the int64 maximum to the minimum. |
| Util.IDsAfter | util/uuid.go:36-38 | The results of n successive calls: n values, all int64. |
| Util.IDGenerator.Init | util/uuid.go:24-29 | After `init` both `_baseID` and `_lastID` are 0, whatever the random draw was. |
| Util.IDGenerator.NewID | util/uuid.go:36-38 | Stores `NextID` of the old counter and returns it; `_baseID` is unchanged. |
| Util.IDsAfterCount | util/uuid.go:36-38 | Below the int64 maximum, call k of n successive calls returns the counter plus k + 1. |
| Util.FreshCounterCounts | util/uuid.go:27-37 | From the state `init` leaves, n calls return 1, 2, ..., n. |
| Util.IDsIncreasing | util/uuid.go:36-38 | While the counter stays below the int64 maximum, successive results strictly increase, so no two are equal. |
| Util.IDGenerator.NewIDs | util/uuid.go:36-38 | n successive `NewID()` calls return `IDsAfter` of the old counter, in call order, and leave the counter at the last of them. |
| Util.FreshIDs | util/uuid.go:24-38 | After `init`, n successive `NewID()` calls on the package return 1, 2, ..., n. |
| Util.FirstThreeIDs | util/uuid.go:24-38 | Three calls after `init` return 1, 2 and 3. |
| Routes.MakeRouteHandlers | api_http/initialize.go:218-223 | Appends one HTML registration per synonym of the page, in synonym order and with the page's handler and flag, plus one summary line naming the page itself. |
| Routes.RegisterPages | api_http/initialize.go:149-158 | For some enumeration of the map's keys, appends each page's registrations and its summary line in that order; the NotFound handler is untouched. |
| Routes.RegisterDirect | api_http/initialize.go:163-174 | For some enumeration of the map's keys, appends one registration under each key, with the handler kind and flag, and one summary line per key. |
| Routes.RegisterWs | api_http/initialize.go:179-190 | Appends one registration and one summary line per WebSocket route, in slice order. |
| Routes.BuildRouter | api_http/initialize.go:139-215 | The router holds the registrations of the seven groups in source order, followed by the NotFound handler. The summary is the groups' lines, each group closed by a blank line, then the "HTML Not Found" line for "*" and a blank line. |
| Routes.EnumeratesMultiset | api_http/initialize.go:149-199 | A map loop visits every key exactly once. |
| Routes.ConcatMapAppend | api_http/initialize.go:149-199 | The output of two consecutive runs of keys is the output of the first followed by that of the second. |
| Routes.ConcatMapPermutation | api_http/initialize.go:149-199 | Visiting the same keys in another order produces a permutation of the same output. |
| Routes.RoutesOrderIndependent | api_http/initialize.go:149-199 | Whatever order Go visits the maps in, the router holds the same registrations, counted with multiplicity. |
| Routes.SummaryOrderIndependent | api_http/initialize.go:149-207 | Whatever order Go visits the maps in, the summary holds the same lines, counted with multiplicity. |
| Routes.ConcatMapMember | api_http/initialize.go:149-199 | An entry is output exactly when some visited key outputs it. |
| Routes.PageRegistrationsAt | api_http/initialize.go:219-221 | A page has one registration per synonym: registration i is synonym i with the page's HTML handler and flag. |
| Routes.PageGroupMembers | api_http/initialize.go:149-157 | An HTML group registers exactly the pairs (synonym of page r, HTML handler of r with the group's authd flag). |
| Routes.DirectGroupOnce | api_http/initialize.go:163-174 | An XHR or FILE group registers every key exactly once under its own pattern, with the handler made from its handler, and nothing else. |
| Routes.GroupLinesOnce | api_http/initialize.go:149-174 | Every map group writes exactly one summary line per key, naming the key itself rather than its synonyms. |
| Routes.WsRegistrationsAt | api_http/initialize.go:179-189 | Registration i of a WebSocket group is route i's URL with the WebSocket handler for route i and the group's flag. |
| Routes.WsLinesAt | api_http/initialize.go:180-187 | Summary line i of a WebSocket group names route i's URL and its procedures. |
| Routes.SummaryShape | api_http/initialize.go:141-207 | Given valid map enumerations, the summary has one line per map key and per WebSocket route plus nine more. Exactly eight of its lines are blank: one after each of the seven groups and one after the NotFound line. |
| Routes.SummaryEnd | api_http/initialize.go:204-207 | The summary always ends with the "HTML Not Found" line for the route "*" and the NotFound handler, followed by a blank line. |
| ApiHttp.AuthStep | api_http/initialize.go:72-97 | Only the `auth` package changes, and its listener list grows by at most `CloseAuthdConn`. The error is nil, one of the two name errors, or the max-age error. |
| ApiHttp.DirsStep | api_http/initialize.go:100-115 | Only the watcher and the app version change, and the app version keeps its value when `reseer.New` reports an error. |
| ApiHttp.WsStep | api_http/initialize.go:125-129 | Only `api_ws` changes. The step fails exactly when the context's panic handler is nil, because `GetVersion` is never nil. |
| ApiHttp.Prepare | api_http/initialize.go:29-59 | The steps before the router leave the context, the root handler and the stopped watchers alone. When they succeed, the panic handler was given and `api_ws` holds it with `GetVersion`. |
| ApiHttp.Startup | api_http/initialize.go:29-69 | No watcher is stopped. A failed start-up installs neither the context nor a router; a successful one installs the context and the router built for it. |
| ApiHttp.Shutdown | api_http/initialize.go:231-237 | Only the list of stopped watchers changes: it grows by at most one entry, and that entry is the current watcher. |
| ApiHttp.HttpPackage.InitializeAuth | api_http/initialize.go:72-97 | Its effect and error are `AuthStep`: the two name checks, then `auth.Initialize` with the five cookie parameters and one listener registration. |
| ApiHttp.HttpPackage.InitializeDirs | api_http/initialize.go:100-115 | Its effect and error are `DirsStep`: the watcher variable always takes the new watcher, and the app version changes only without an error. |
| ApiHttp.HttpPackage.InitializeWS | api_http/initialize.go:125-129 | Its effect and error are `WsStep`: `api_ws.Initialize` with `GetVersion` and the context's panic handler. |
| ApiHttp.HttpPackage.InitializeRouter | api_http/initialize.go:139-215 | Installs the router built for the context as the root handler, returns no error and yields the summary, for some valid key orders. |
| ApiHttp.HttpPackage.Initialize | api_http/initialize.go:29-69 | Its effect and error are `Startup`: the steps in order, stopping at the first error, and the context stored only after all succeed. |
| ApiHttp.HttpPackage.DeInitialize | api_http/initialize.go:231-237 | Its effect is `Shutdown`: stop the watcher only when there is one. |
| ApiHttp.ContextCommittedOnlyOnSuccess | api_http/initialize.go:29-69 | The context is remembered exactly when start-up succeeds; on any error it keeps its old value. |
| ApiHttp.MissingCookieNamesChangeNothing | api_http/initialize.go:74-82 | An empty cookie name or store id is reported before anything changes: `auth` is not configured and no listener is added. |
| ApiHttp.ListenerRegisteredOnce | api_http/initialize.go:84-96 | Once both names are given, `CloseAuthdConn` is appended exactly once, whatever `auth.Initialize` and the later steps return. |
| ApiHttp.AuthFailsOnlyOnMaxAge | api_http/initialize.go:84-96 | With the names checked here, `auth.Initialize` fails exactly when the max-age is not an int64, and then with the "maxAge not integer" error. |
| ApiHttp.AuthAndDirsErrorsStopStartup | api_http/initialize.go:29-39 | An error from the auth step or from `reseer.New` is what start-up returns, with the world that step left, whatever the panic handler is; no later step runs. |
| ApiHttp.NilOnPanicReportedAfterAuthAndDirs | api_http/initialize.go:32-44 | A nil panic handler is reported only after the auth and dirs steps have succeeded, and their effects remain. |
| ApiHttp.ReqresAndXhrErrorsStopStartup | api_http/initialize.go:29-59 | Once auth and the watcher are set up and a panic handler is given, a `reqres` error is returned as it is, without reaching `api_xhr`. An `api_xhr` error is returned only after `reqres` succeeded. Either way `api_ws`, the router and the context are left untouched. |
| ApiHttp.StartupSucceedsIff | api_http/initialize.go:29-69 | Start-up succeeds exactly when the cookie settings are valid, the watcher starts, a panic handler is given and `reqres` and `api_xhr` accept it. The WebSocket and router steps never fail once reached. |
| ApiHttp.SuccessfulStartupState | api_http/initialize.go:29-69 | After success the context, all six cookie settings (the store built from the store id, the max-age the string denotes), the listener list, the watcher, the app version, the WebSocket callbacks and the root router hold what the context asked for, and no watcher was stopped. |
| ApiHttp.DirsVersionOnlyOnSuccess | api_http/initialize.go:104-114 | The watcher variable always takes `reseer.New`'s watcher; the version is set from it only when no error came back; nothing else changes. |
| ApiHttp.StartupOrderIndependent | api_http/initialize.go:29-199 | Map iteration order changes neither the error nor any state except the order of the router's registrations, which hold the same entries. |
| ApiHttp.ShutdownStopsOnlyAWatcher | api_http/initialize.go:231-237 | With no watcher `DeInitialize` changes nothing; with one, that watcher is stopped once. |
| ApiHttp.ShutdownAfterStartup | api_http/initialize.go:29-237 | `DeInitialize` after a successful `Initialize` stops exactly the watcher `reseer.New` returned, if it returned one. |
| ApiHttp.RepeatedShutdownStopsTwice | api_http/initialize.go:231-237 | The watcher variable is never cleared, so a second `DeInitialize` stops the same watcher again. |

## Left out

- Request serving is not modelled: gorilla/mux path matching, `http.Handle` and the serving of requests. The router is the sequence of its registrations, and `http.Handle("/", router)` is the `root` variable. A second `http.Handle("/")` would panic in Go; the model simply overwrites `root`.
- The gorilla/sessions cookie store is an opaque value built from the store id.
- `reseer.New`, `VersionTxt`, `path.Join`, `routeSynonyms`, `reqres.Initialize` and `api_xhr.Initialize` are functions passed in as `Env`. Their code is not part of this model. The state they change inside their own packages is not modelled.
- `setAppVersion` is modelled as storing the version text in the app-version variable.
- `auth.AddListener_DeAuth` is not part of this model; only its call at `api_http/initialize.go:94` is. It is modelled as appending the listener to a list that keeps duplicates. `ApiHttp.ListenerRegisteredOnce` and `ApiHttp.SuccessfulStartupState` depend on that.
- `util.NewSummary` and its title and column headings are not part of this model. The summary starts empty and holds only the lines `AddLine` and `AddBlankLine` add, so `Routes.SummaryShape` counts only those lines.
- The watcher's asynchronous `onAppVersionChanged` callbacks are file-system I/O and concurrency, and are not modelled. `Stop` is recorded as an entry in the `stopped` list.
- `makeHandler_HTML`, `makeHandler_XHR`, `makeHandler_WS` and `makeHandler_NotFound` are kept as the terms that built each handler (`Made`, `MadeWs`, `MadeNotFound`). What those handlers do at request time is not modelled, nor is their capture of the context.
- WebSocket routes are handed over by value. The address `&wsr` of the loop variable may be shared across iterations in older Go versions; that aliasing is not modelled.
- Printing the route summary and the reflection in `util.GetFuncInfo` are output formatting only. The summary line keeps the handler's identity instead of the strings `GetFuncInfo` would produce.
- The `Ctx` type's declaration is not part of this model. Its fields are those `api_http/initialize.go` reads.
- `api_http/initialize.go:84-91` passes six arguments (the sixth is the panic handler) to `auth.Initialize`, which `auth/initialize.go:25` declares with five. The model calls it with the five it declares.
- `NewUUID` shells out to `uuidgen` and is left out.
- The atomicity of `atomic.AddInt64` is not modelled; `NewID` is sequential.
- The random draw in `util`'s `init` is a parameter of `IDGenerator.Init`; it is discarded as in the source.
- Duplicate-route rejection, session validation and panic recovery are not implemented by this code, and are not modelled.
- `Strconv` models `strconv.Atoi` for Go's 64-bit `int`. On a 32-bit platform the range bounds would differ.
