# gnso translation core in Dafny

This project models the translation core of gnso, a gRPC gateway in front of a Cisco NSO controller. The gateway checks a token on every RPC. It turns each RPC into one RESTCONF request, and the controller client sends that request with basic authentication and YANG-JSON headers. The client then classifies the controller's answer: a transport error, a non-2xx status, an `errors` member in a 2xx body, or the body itself. For the device listing, the gateway reshapes the JSON device array into typed device records.

Modules:

- `Wrappers`, `Strings` (`wrappers.dfy`): `Option`, `Result` and an infix predicate on strings.
- `Json` (`json.dfy`): a JSON value datatype with the lookups the core uses. A key lookup returns the first member with that key. Lookup also works along a path. The "array view" of a value is empty for a missing or null value and is `[v]` for a non-array value. The "text view" is empty for a missing or null value and the rendering for objects.
- `NsoController` (`nso_controller.dfy`): the controller descriptor `Controller(url, username, password)` and the five request builders. `Route`/`Target` is an inverse pair that recovers the namespace (`/data`, `/operations`, `/tailf/query`) and the resource path from a URL. The class `HttpRequest` has its headers and credentials set in place by `PrepareRequest`. `Classify` turns an exchange outcome into the body or an error.
- `Devices` (`devices.dfy`): one device record per array element. The device type is the first of `cli`, `netconf` and `generic` present under `device-type`. The specification is a recursive scan (`FirstPresent`). The source's loops are methods proved equal to it (`SelectType`, `Reshape`).
- `Gateway` (`gateway.dfy`): the token check, the full path, the mapping from operation type to HTTP method, and the five handlers. Each handler is stated twice. First as a `Plan`: either a local error, decided without contacting the controller, or one `RestconfRequest` plus a post-processing step. Then as a method that follows the source's steps and is proved to give the plan's reply and to send exactly the plan's request (`None` when the plan is local).

The environment is a parameter: `Config` holds the token and the controller. The network is a parameter too: an `Exchange` is a transport failure, a body-read failure, or a status with a body. Reading JSON text is a `Reader` parameter, so every property holds whatever JSON reader is used.

Points where the model's reading of the source is worth stating:

- The device type is the candidate name stored in the string field `NedType` (main.go:83-86), modelled as the string field `nedType`.
- When `tailf-ncs:device` holds a value that is neither an array nor null, the array view of main.go:72 yields one record for it, not an empty list.
- The token check of the plans and handler methods is the corrected check `Authorized`, not the check as written. With a token configured and no `request` field, the model replies `PermissionDenied`, where main.go:60 passes a nil message to `isTokenValid` and main.go:52 panics on it. The as-written check is `TokenCheckAsWritten` (see Findings).

## Model

| member | source | states |
|---|---|---|
| `Json.IndexOf` | main.go:74-76 | the position found is that of the first member with the key; every earlier member has another key |
| `Json.Get` | main.go:70 | a lookup succeeds exactly on an object that has the key, and yields the first such member's value |
| `Json.GetPathSnoc` | main.go:80-83 | looking up `a.b.k` is looking up `k` in the result of `a.b`: `device-type.<t>.ned-id` is the `ned-id` of the `device-type.<t>` sub-object |
| `Json.Elements` | main.go:72 | the array view: empty for a missing value and for null, the items of an array, one element for any other value |
| `NsoController.ClassifySucceedsExactly` | integrations/nso_controller.go:47-75 | an answer succeeds if and only if it is a 2xx response whose body has no top-level `errors` member, and the result is then the body unmodified |
| `NsoController.TransportFailurePassesThrough` | integrations/nso_controller.go:52-60 | a failed exchange or body read is returned with its own reason and no body |
| `NsoController.StatusCheckedFirst` | integrations/nso_controller.go:62-64 | a non-2xx status gives the status error even when the body has `errors`; the message contains both the status line and the raw body |
| `NsoController.ErrorsMemberIsReported` | integrations/nso_controller.go:67-72 | a 2xx body with a top-level `errors` member gives an error carrying that member's value |
| `NsoController.BadPathScenario` | integrations/nso_controller.go:67-72 | a 200 answer `{"errors":{"error":[{"error-message":"bad path"}]}}` fails with a logical error whose message contains "bad path" |
| `NsoController.Controller.RouteTarget` | integrations/nso_controller.go:80-154 | every endpoint (`/data`+path, `/operations`+path, `/tailf/query`) is recovered from its URL |
| `NsoController.Controller.TargetRoute` | integrations/nso_controller.go:80-154 | every URL that routes to an endpoint is exactly that endpoint's URL, so a routed URL pins the request's URL |
| `NsoController.Controller.GetDevicesRequest` | integrations/nso_controller.go:80-82 | GET, no body, URL = base + `/data/tailf-ncs:devices/device?fields=address;name;device-type;authgroup&depth=2` |
| `NsoController.Controller.GetConfigRequest` | integrations/nso_controller.go:98-100 | GET, no body, URL = base + `/data` + purl |
| `NsoController.Controller.EditConfigRequest` | integrations/nso_controller.go:116-118 | the caller's method, the payload as body, URL = base + `/data` + purl |
| `NsoController.Controller.QueryRequest` | integrations/nso_controller.go:134-136 | POST, the payload as body, URL = base + `/tailf/query` |
| `NsoController.Controller.ExecOperationsRequest` | integrations/nso_controller.go:152-154 | POST, the payload as body, URL = base + `/operations` + purl |
| `NsoController.AddHeader` | integrations/nso_controller.go:42-43 | adding a header value appends it to that header's values and leaves every other header as it was |
| `NsoController.HttpRequest.constructor` | integrations/nso_controller.go:82 | a new request has the given method, URL and body, no headers and no credentials |
| `NsoController.Controller.PrepareRequest` | integrations/nso_controller.go:38-45 | in place: the credentials become (Username, Password); `Accept` and `Content-Type` each get `application/yang-data+json` appended |
| `NsoController.Controller.MakeRequest` | integrations/nso_controller.go:47-75 | in place: the credentials become (Username, Password), `Accept` and `Content-Type` each get the media type appended to what they held, and the result is the classification of the exchange |
| `NsoController.Controller.GetDevices` | integrations/nso_controller.go:78-93 | a fresh request equal to `GetDevicesRequest()` is sent carrying the credentials (Username, Password) and exactly the headers `Accept` and `Content-Type`, each holding `application/yang-data+json` once; the result is the classified answer |
| `NsoController.Controller.GetConfig` | integrations/nso_controller.go:96-111 | a fresh request equal to `GetConfigRequest(purl)` is sent carrying the credentials (Username, Password) and exactly the headers `Accept` and `Content-Type`, each holding `application/yang-data+json` once; the result is the classified answer |
| `NsoController.Controller.EditConfig` | integrations/nso_controller.go:114-129 | a fresh request equal to `EditConfigRequest(purl, payload, method)` is sent carrying the credentials (Username, Password) and exactly the headers `Accept` and `Content-Type`, each holding `application/yang-data+json` once; the result is the classified answer |
| `NsoController.Controller.Query` | integrations/nso_controller.go:132-147 | a fresh request equal to `QueryRequest(payload)` is sent carrying the credentials (Username, Password) and exactly the headers `Accept` and `Content-Type`, each holding `application/yang-data+json` once; the result is the classified answer |
| `NsoController.Controller.ExecOperations` | integrations/nso_controller.go:150-165 | a fresh request equal to `ExecOperationsRequest(purl, payload)` is sent carrying the credentials (Username, Password) and exactly the headers `Accept` and `Content-Type`, each holding `application/yang-data+json` once; the result is the classified answer |
| `Devices.FirstPresent` | main.go:79-89 | no type exactly when none of the candidates is present; otherwise the chosen type is a present candidate, no earlier candidate is present, and it carries that candidate's `ned-id` |
| `Devices.TypePriority` | main.go:79-89 | `cli` wins whatever else is present, then `netconf`, then `generic`; the type is absent exactly when all three are missing |
| `Devices.NedIdOfWinningType` | main.go:80-85 | the reported NED id is the `ned-id` of the sub-object that decided the type |
| `Devices.DevicesFrom` | main.go:71-91 | one record per element: same length, record `i` built from element `i` |
| `Devices.MissingListIsEmpty` | main.go:70-72 | a missing or null device array gives an empty list, not an error |
| `Devices.SelectType` | main.go:79-89 | the loop that tries `cli`, `netconf`, `generic` and stops at the first present one yields the scan's type |
| `Devices.Reshape` | main.go:70-91 | the appending loop yields exactly the reshaped list of the answer |
| `Devices.TwoDeviceScenario` | main.go:70-91 | a `cli` device and a `netconf` device give two records in the same order, with matching names, types and NED ids |
| `Gateway.IsTokenValid` | main.go:48-55 | a token passes if and only if no token is configured or it equals the configured one |
| `Gateway.Authorized` | main.go:48-55 | a call passes if and only if no token is configured, or its `request` field is present and carries the configured token |
| `Gateway.TokenCheckAsWritten` | main.go:48-55 | the check as written has no answer exactly when a token is configured and the `request` field is absent |
| `Gateway.TokenCheckAsWrittenDiffers` | main.go:48-55 | where the written check answers it agrees with `Authorized`; for token "secret" and no `request` field it has no answer, where `Authorized` denies |
| `Gateway.FullPath` | main.go:106-110 | the path is kept as a prefix and is the whole result when there are no options; otherwise `?` + options follows it |
| `Gateway.FullPathRoundTrip` | main.go:106-110 | splitting the full path at its first `?` gives back the path and the options when the path has no `?` |
| `Gateway.OperationMethod` | main.go:186-203 | exactly merge, replace, create and delete have a method, and never GET |
| `Gateway.OperationRoundTrip` | main.go:186-199 | merge/PATCH, replace/PUT, create/POST, delete/DELETE, one-to-one in both directions |
| `Gateway.UnsupportedNamesValue` | main.go:200-201 | the unsupported-operation error message contains the offending value |
| `Gateway.GetDevicesPlan` | main.go:57-98 | local PermissionDenied exactly when unauthorized; otherwise a bodyless GET of the device projection, then reshaping |
| `Gateway.ExecOperationPlan` | main.go:99-124 | local PermissionDenied exactly when unauthorized; otherwise POST of the data to `/operations` + full path, then the envelope |
| `Gateway.GetConfigPlan` | main.go:126-151 | local PermissionDenied exactly when unauthorized; otherwise a bodyless GET of `/data` + full path, then the envelope |
| `Gateway.QueryPlan` | main.go:153-173 | local PermissionDenied exactly when unauthorized; otherwise POST of the query to `/tailf/query`, then the envelope |
| `Gateway.EditConfigPlan` | main.go:175-217 | local error exactly when unauthorized (PermissionDenied) or the type is unsupported (Unsupported, checked second); otherwise the type's method on `/data` + full path with the data |
| `Gateway.DeniedWithoutControllerCall` | main.go:60-62 | in every handler an unauthorized call is refused with PermissionDenied before any controller request |
| `Gateway.LocalErrorsIgnoreController` | main.go:200-201 | a locally decided error is the reply whatever the controller would have answered |
| `Gateway.UnsupportedWithoutControllerCall` | main.go:200-201 | an authorized edit with an unknown type fails locally, and the message names the type |
| `Gateway.EnvelopeIsBodyVerbatim` | main.go:116-118 | for GetConfig, ExecOperation, Query and EditConfig, a successful answer's body is the envelope's result unchanged |
| `Gateway.ControllerErrorsPassThrough` | main.go:111-114 | a controller error becomes the reply unchanged, with the same message and no retry |
| `Gateway.DevicesFromAnswer` | main.go:64-97 | an authorized, successful device listing replies with the reshaped device array of the body |
| `Gateway.GetDevices` | main.go:57-98 | the handler gives the plan's reply and sends the plan's request (none when refused) |
| `Gateway.ExecOperation` | main.go:99-124 | the handler gives the plan's reply and sends the plan's request (none when refused) |
| `Gateway.GetConfig` | main.go:126-151 | the handler gives the plan's reply and sends the plan's request (none when refused) |
| `Gateway.Query` | main.go:153-173 | the handler gives the plan's reply and sends the plan's request (none when refused) |
| `Gateway.EditConfig` | main.go:175-217 | the handler gives the plan's reply and sends the plan's request (none when refused or unsupported) |

## Left out

- The HTTP exchange, reading the response body, and connection handling: the outcome of the exchange is a parameter (`Exchange`).
- URL parse failures of the request constructor: the model's requests are always built.
- Parsing JSON text: the `Reader` parameter stands for it. gjson's full path syntax (wildcards, array indices, escapes) is not modelled; only key lookup and dotted paths of plain keys are.
- Json.Text: for objects and arrays the source returns the original raw text, while the model renders compact JSON, with only `"` and `\` escaped in strings. For numbers the model returns the literal; the source does too for integers, but re-formats other numbers.
- NsoController.Controller.PrepareRequest: the `Authorization` header's base64 encoding is not modelled; the request records the credential pair instead. Header-name canonicalization is not modelled either.
- Gateway.GetDevices, Gateway.ExecOperation, Gateway.GetConfig, Gateway.Query, Gateway.EditConfig (and their plans): they model the corrected token check `Authorized`; the nil-dereference panic of main.go:52 for a call without the `request` field is modelled only by `TokenCheckAsWritten`, not by the handlers.
- NsoController.Controller.EditConfig: the HTTP method is one of five `Method` values, not an arbitrary string. The gateway only ever passes the four edit methods.
- The gRPC server bootstrap, listening port, TLS credentials, environment-variable reads (replaced by `Config`), logging and protobuf message types.
- gRPC status codes: only PermissionDenied is modelled, as a tag.
- Concurrency between calls: each call is independent and shares only the read-only `Config`.
- The integration test file against a live controller: its device-type loop mirrors the gateway's priority scan.

## Findings

| source | as written | input that shows it | evidently intended | confidence | as-written member | corrected member |
|---|---|---|---|---|---|---|
| main.go:48-55 | the token check reads `req.Token` through the message's `request` field, which is nil when the caller omits it | an RPC that leaves the `request` field unset while a token is configured: the handler dereferences nil and panics instead of answering | refuse the call with PermissionDenied, treating the missing field as an empty token (as the generated nil-safe getter does) | medium, not executed | `Gateway.TokenCheckAsWritten` (counterexample in `Gateway.TokenCheckAsWrittenDiffers`) | `Gateway.Authorized` |
