# kizcool in Dafny

kizcool is a Go client for the Overkiz ("Kiz") cloud API of home-automation boxes,
with a bridge from a KNX bus to it. This project models and proves the client-side
decision logic of that repository:

- **HTTP error classification.** `checkStatusOk` turns a response into an error.
  There are two forms. The form in `api/api.go` recognises an unknown event
  listener on status 400. The form shared by `kizcool.go`, `client/client.go` and
  `api.go` does not (module `Status`).
- **Login and the authenticated request.** Login is one form POST. The reply must
  carry a non-empty `JSESSIONID` cookie. `DoWithAuth` sends a request, logs in once
  on an authentication error, and sends again (module `Session`).
  - `api.go` differs: it ignores how that login went (module `RootApi`).
- **The event-listener lifecycle of `api/api.go`.** This is the `api.Client` class.
  Its `listenerID` field is set by registration, cleared by unregistration, and
  consulted by `PollEvents`. `PollEvents` has a one-shot re-register-and-refetch
  path (module `Api`).
  - The stateless listener calls of `client/client.go` are in module `LegacyClient`.
- **Event decoding.** `events.go` decodes a JSON array of events, dispatching on the
  `name` discriminator to seven event kinds (module `Events`).
- **Domain helpers of `kizcool.go`.** These cover case-insensitive lookup of a unique
  device label, the test of whether a device supports a command, and single-command
  action groups that fail closed. They also cover the device operations On, Off,
  Open, Close, Stop, SetIntensity and SetClosure, and the device-URL shape test of
  `GetDeviceByText` (module `Kizcool`).
- **The KNX bridge.** `knxbridge/knxbridge.go` turns GroupWrite telegrams into
  switch and scaling calls on the device that the configuration maps the destination
  group address to (module `KnxBridge`).
- **The KNX template generator.** `cmd/kizcmd/cmd/cmd_knx_template.go` merges the
  configured devices with the box's devices (module `KnxTemplate`).

The network is an abstract server. Each request is answered with a transport failure
or a response, as a function of every request sent so far (`Http.Server`). The
`*http.Client` with its cookie jar is the class `Http.Transport`. It records every
request it sends, together with the session the jar holds at that moment, and it keeps
the cookies of each response.

Each effectful sequence is defined once, as a function from the transport state
before it to a result and the transport state after it. These are `Session.Login`,
`Session.DoWithAuth`, `Api.Register`, `Api.PollEventsAsWritten` and the like. The
class methods are proved equal to those functions. The lemmas about the functions
then state the send counts, the order of the requests, which errors surface and
what the stored listener id becomes.

## Model

| member | source | states |
|---|---|---|
| Text.Contains | api/api.go:294-300 | `strings.Contains` is exact and case-sensitive: true iff `sub` occurs at some position of `s` |
| Text.ToLower | kizcool.go:145 | lower-casing keeps the length and maps each ASCII upper-case letter to its lower-case form, leaving every other character alone |
| Http.SeededJar | client/client.go:68-79 | a fresh jar seeded with the cached session gives that session back through SessionID; an empty session seeds nothing, so SessionID is "" |
| Http.SessionCookieValue | api/api.go:93-98 | the login cookie search finds a value iff some cookie is named JSESSIONID with a non-empty value; the value found is non-empty and belongs to the first such cookie |
| Status.CheckStatusOk | api/api.go:279-306 | 200 gives no error and the body is not consulted; a non-200 body that is not an envelope gives a json-decode error; 401 gives TooManyRequests iff the message contains "Too many requests", else Authentication; 400 gives NoRegisteredEventListener iff the message contains "No registered event listener", else a plain error; any other status gives the envelope itself; typed errors carry the server's message unchanged |
| Status.CheckStatusOkNo400 | kizcool.go:51-71 | the same classification without the 400 branch: every status but 200 and 401 whose body decodes gives the envelope, and a listener error or plain error never comes out (identical in client/client.go:24-44 and api.go:71-91) |
| Status.FormsDifferOnlyOn400 | api/api.go:298-305 | the two forms agree on every status but 400; on 400 with an envelope the older form reports the envelope and the forms disagree |
| Status.CheckStatusOkTable | api/api_test.go:192-216 | the rows of TestCheckStatusOk: 200 gives none, "Bad credentials" gives Authentication, "Too many requests, try again later : login with user@domain.com" gives TooManyRequests with that message, status 999 with a body that is not JSON gives a json-decode error |
| Status.EnvelopeErrorText | api/api_test.go:192-216 | the 500 row: the generic error reads `{WEIRD_ERROR Unexpected}` |
| Status.CheckStatusOkNo400Table | client/client_test.go:13-37 | the 401 rows, "Bad credentials" and "Too many requests, try again later : login with user@domain.com", hold for the older form too, each error carrying the test's message |
| Status.UnknownListenerRow | api/api_test.go:134-151 | the 400 "No registered event listener" body is a listener error for api/api.go and a generic envelope for the older form |
| Session.LoginResult | api/api.go:83-99 | login succeeds iff the reply is a 200 with a non-empty JSESSIONID cookie, and then yields that cookie's value; a 200 without one is its own error, distinct from every classified error; a transport failure and a classified error are returned as they are |
| Session.DoWithAuthSends | api/api.go:113-134 | DoWithAuth only appends to the log, and what it sends is exactly `[req]`, `[req, login]` or `[req, login, req]`: at most two sends and one login |
| Session.DoWithAuthRetriesOnlyAfterLogin | api/api.go:118-128 | a login happens iff the first reply classified as an authentication error; a second send happens iff, in addition, the login succeeded |
| Session.DoWithAuthResult | client/client.go:133-154 | a first-send transport failure is returned without retry; an unclassified first reply is returned; every other error, TooManyRequests included, is returned with no further send; a failed login is returned; the retried reply is returned unclassified, and it was sent while the jar held the session the login left |
| Api.Register | api/api.go:202-221 | registration stores an id iff DoWithAuth succeeded and the body decoded, and stores exactly the decoded id; on any failure the stored id is unchanged and the error is returned (a body that does not decode is its own error) |
| Api.Unregister | api/api.go:224-240 | with no stored id nothing is sent and nothing changes; otherwise the id is cleared iff the request succeeded, and a failed request keeps it and returns the error |
| Api.PollWithID | api/api.go:243-253 | an empty id gives NoRegisteredEventListener("listenerID cannot be empty") with nothing sent; any other id is fetched through DoWithAuth |
| Api.PollEventsFirstRequest | api/api.go:256-263 | the first request PollEvents sends is a registration when no id is stored, and a fetch with the stored id otherwise |
| Api.PollEventsExtends | api/api.go:256-274 | every path of PollEvents only appends to the log, and sends at most twelve requests (four DoWithAuth calls) |
| Api.PollEventsRegistrationFailure | api/api.go:257-267 | a failed registration, the first one (sent only when no id is stored) or the one after an unknown-listener error, ends PollEvents with that error and leaves the stored id unchanged |
| Api.PollEventsStoresRenewedId | api/api.go:262-270 | whether or not a first registration was needed: after an unknown-listener error on the first fetch and a successful re-registration, the id stored is the re-registered one and the result fails iff the second fetch fails; a failed re-registration returns its error with the id unchanged |
| Api.PollEventsDropsOtherFetchErrors | api/api.go:257-274 | as written, whether or not a first registration was needed, a first fetch failing for any reason other than an unknown listener yields no response and no error, with the network state of that fetch and the id it used |
| Api.PollEventsSwallowsTransportFailure | api/api.go:262-274 | a concrete server whose connection drops after registration: PollEvents reports success with no response, with listener "L1" stored |
| Api.PollEventsReportingSurfacesErrors | api/api.go:256-274 | the corrected PollEvents never reports success without a response, returns the first-fetch error it did not recover from (after a first registration or not), and agrees with the as-written form wherever that one did not return an empty success |
| Api.Client.NewWithHTTPClient | api/api.go:39-66 | an empty base URL is refused; a session to seed with an unparsable base URL is refused; otherwise a fresh client with no listener and a jar holding exactly the cached session; nothing is sent |
| Api.Client.Login | api/api.go:83-99 | the login method sends the login request and returns the error of Session.Login over the transport state, which it leaves as that function says |
| Api.Client.DoWithAuth | api/api.go:113-134 | the method's result and new transport state are those of Session.DoWithAuth for the ListenerAware classification |
| Api.Client.SetListenerID | api/api.go:188-192 | the stored listener id becomes the given one |
| Api.Client.RegisterListener | api/api.go:202-221 | result, transport state and stored id are those of Api.Register from the old state and old id |
| Api.Client.UnregisterListener | api/api.go:224-240 | result, transport state and stored id are those of Api.Unregister from the old state and old id |
| Api.Client.PollEventsWithID | api/api.go:243-253 | result and transport state are those of Api.PollWithID |
| Api.Client.PollEvents | api/api.go:256-274 | result, transport state and stored id are those of Api.PollEventsAsWritten from the old state and old id |
| LegacyClient.Register | client/client.go:204-222 | RegisterListener returns the decoded id iff DoWithAuth succeeded and the body decoded; errors are returned; nothing is stored |
| LegacyClient.Unregister | client/client.go:225-237 | UnregisterListener sends the request even for an empty id, and returns exactly the error of DoWithAuth |
| LegacyClient.RegisterTwiceSendsTwice | client/client.go:204-222 | with no stored state, two registrations send two register requests, one at the start of each call |
| LegacyClient.Client.NewWithHTTPClient | client/client.go:63-87 | no check of an empty base URL; fails (with the jar unchanged) iff a session is to be seeded and the base URL does not parse; otherwise the jar holds exactly the cached session; nothing is sent |
| LegacyClient.Client.Login | client/client.go:103-119 | the login method sends the login request and returns the error of Session.Login for the Classic classification |
| LegacyClient.Client.DoWithAuth | client/client.go:133-154 | the method's result and new transport state are those of Session.DoWithAuth for the Classic classification |
| LegacyClient.Client.RegisterListener | client/client.go:204-222 | result and transport state are those of LegacyClient.Register |
| LegacyClient.Client.UnregisterListener | client/client.go:225-237 | result and transport state are those of LegacyClient.Unregister |
| RootApi.LoginAndSave | api.go:49-66 | Login returns what Session.Login returns, and the saved session becomes the new value exactly when login succeeded |
| RootApi.DoWithAuthAlwaysRetries | api.go:105-125 | the request is sent once, or twice around one login, never a login without the retry; it is twice iff the first reply was an authentication error |
| RootApi.DoWithAuthAgainstSession | api.go:112-119 | unless the login inside fails, this DoWithAuth gives the same result and transport state as the one of client/client.go; when it fails, that one returns the login error while this one returns the retried reply |
| RootApi.DoWithAuthSavesOnlyLoggedInSession | api.go:58-63 | the saved session changes only when the first reply was an authentication error and the login inside succeeded, and then to that login's value |
| RootApi.API.NewAPI | api.go:22-45 | fails iff a session is to be seeded and the base URL does not parse; otherwise the jar holds exactly the configured session and the saved session is that one; nothing is sent |
| RootApi.API.Login | api.go:49-66 | result, transport state and saved session are those of RootApi.LoginAndSave |
| RootApi.API.DoWithAuth | api.go:105-125 | result, transport state and saved session are those of RootApi.DoWithAuthIgnoringLogin |
| Kizcool.DefinesCommand | kizcool.go:260-267 | the scan over command definitions is true iff some definition has that name |
| Kizcool.SupportsCommand | kizcool.go:260-267 | a device supports a command iff some command definition of the device has the command's name |
| Kizcool.ActionGroupWithOneCommand | kizcool.go:270-282 | fails with "does not support" iff the command is unsupported; otherwise exactly one action, on the device's URL, holding exactly `[command]` |
| Kizcool.Invoke | kizcool.go:285-291 | something is submitted iff the command is supported; what is submitted is the one-command group, and the result is Execute's; otherwise nothing is executed and the error is returned |
| Kizcool.On | kizcool.go:285-291 | submits iff the device supports "on", and then exactly the one command "on" without parameters; the result is Execute's reply when submitted and an unsupported-command error otherwise |
| Kizcool.Off | kizcool.go:294-300 | submits iff the device supports "off", and then exactly that one command; the result is Execute's reply when submitted and an unsupported-command error otherwise |
| Kizcool.Open | kizcool.go:303-309 | submits iff the device supports "open", and then exactly that one command; the result is Execute's reply when submitted and an unsupported-command error otherwise |
| Kizcool.Close | kizcool.go:312-318 | submits iff the device supports "close", and then exactly that one command; the result is Execute's reply when submitted and an unsupported-command error otherwise |
| Kizcool.Stop | kizcool.go:321-327 | submits iff the device supports "stop", and then exactly that one command; the result is Execute's reply when submitted and an unsupported-command error otherwise |
| Kizcool.SetIntensity | kizcool.go:330-339 | submits iff the device supports "setIntensity", and then that command with the intensity passed through unchanged; the result is Execute's reply when submitted and an unsupported-command error otherwise |
| Kizcool.SetClosure | kizcool.go:342-351 | submits iff the device supports "setClosure", and then that command with the position passed through unchanged; the result is Execute's reply when submitted and an unsupported-command error otherwise |
| Kizcool.SupportIgnoresParameters | kizcool.go:330-351 | whether SetIntensity and SetClosure submit does not depend on the value: no range check |
| Kizcool.IsDeviceURL | kizcool.go:161-162 | the greedy test is true iff the regular expression `^[a-z]+://\d{4}-\d{4}-\d{4}/\d+` matches a prefix of the text |
| Kizcool.DeviceURLIsPrefixMatch | kizcool.go:161 | the expression has no end anchor: whatever follows a device URL, the text still has the URL shape |
| Kizcool.DeviceURLAccepted | kizcool_test.go:181-210 | the device URL of the tests, `io://1111-0000-4444/12345678`, has the URL shape |
| Kizcool.DeviceURLRejected | kizcool.go:161 | an upper-case scheme and a plain label such as "label1" do not have the URL shape |
| Kizcool.DeviceURLNeedsFourDigits | kizcool.go:161 | a group of three digits does not have the URL shape |
| Kizcool.DeviceFromListByLabel | kizcool.go:142-156 | the lookup compares lower-cased labels. It fails as ambiguous iff two devices match and the earlier one has a URL, identical entries included. It fails as not found iff it is not ambiguous and no matching device has a URL. Otherwise it returns the one matching device with a URL; every other match comes earlier and has no URL. It succeeds iff the label is neither ambiguous nor missing |
| Kizcool.LookupIgnoresCase | kizcool.go:145 | a query and its lower-cased form are ambiguous, and found, for the same device lists |
| Kizcool.LookupTestCases | kizcool_test.go:118-141 | through the lookup's contract alone, "label1" returns device1 itself, "bogus" is a not-found error and "label2", listed twice, is an ambiguity error |
| Kizcool.GetDeviceByText | kizcool.go:160-181 | the device is fetched by URL iff the text has the URL shape. Otherwise the label lookup runs over all devices: a fetch error of the device list is returned; otherwise it succeeds iff the label is neither ambiguous nor missing, and then it returns a matching device with a URL after which no other device matches |
| Kizcool.Kiz.New | kizcool.go:29-46 | a new Kiz client starts with an empty cookie jar and sends nothing |
| Kizcool.Kiz.Login | kizcool.go:74-90 | the login method sends the login request and returns the error of Session.Login for the Classic classification |
| Events.KindOfIsExact | events.go:115-129 | exactly the seven discriminator names select a kind, each its own, by exact case-sensitive equality |
| Events.EventType | events.go:108-111 | a string `name` is the discriminator; a missing or non-string name is read as "" |
| Events.NamelessIsUnknown | events.go:108-131 | an element without a string name selects no kind |
| Events.DecodeElement | events.go:101-137 | an element decodes iff it is an object, its name selects a kind and it decodes as that kind, and then into that kind. A non-object is an object-decode error. An unknown name is an error that carries the name and the decoded object. A known name whose fields do not decode as its kind is a field-decode error |
| Events.DecodeFrom | events.go:100-139 | whatever the element decoder, the events are those of the elements from the starting index up to the first failing one, in order; there is no error iff every remaining element decoded; the error is that of the first failing element |
| Events.DecodeAll | events.go:100-139 | the events decoded are, in order, those of the elements before the first failing one; there is no error iff every element decoded; the error is that of the first failing element |
| Events.DecodeAllPrefix | events.go:100-139 | decoding is element by element: a prefix that decodes fully decodes to the front of the whole |
| Events.Events.UnmarshalJSON | events.go:93-141 | an undecodable array gives an error and the receiver is unchanged. Otherwise the receiver becomes its old events followed by the events decoded before the first failure, which stay even when a later element fails, and the error is that of the first failing element |
| KnxBridge.Intensity | knxbridge/knxbridge.go:140 | `data[1]*100/255` always lies in 0..100 and is the floor of the byte rescaled onto 0..100 |
| KnxBridge.IntensityEndpoints | knxbridge/knxbridge.go:140 | 0 gives 0, 128 gives 50, 255 gives 100 |
| KnxBridge.IntensityMonotone | knxbridge/knxbridge.go:140 | a larger byte never gives a smaller intensity |
| KnxBridge.ProcessCommand | knxbridge/knxbridge.go:111-147 | setOnOff: an empty payload is an error, byte 1 turns the device on, any other byte turns it off. setIntensity: fewer than two bytes is an error, otherwise the intensity of the second byte is set. Any other name gives "Unhandled command". Every call is on the given device |
| KnxBridge.SwitchIsNotMasked | knxbridge/knxbridge.go:123-129 | the switch byte is compared with 1 as it is: 3 turns the device off, and bytes after the first are ignored |
| KnxBridge.ScalingTelegramReachesBox | knxbridge/knxbridge.go:130-142 | a scaling telegram of two or more bytes reaches the box iff the device supports setIntensity, and then as exactly one setIntensity command on the device's URL with the rescaled value |
| KnxBridge.Bridge.ProcessKizEvent | knxbridge/knxbridge.go:69-76 | box events are not bridged: always nil |
| KnxBridge.Bridge.ProcessKnxEvent | knxbridge/knxbridge.go:78-109 | a telegram that is not a GroupWrite, or a destination no binding listens on, is ignored: no fetch, no call, no error. Otherwise only the first binding on the destination acts, scanning devices and then their commands in order. Its device URL is fetched; a fetch failure is returned wrapped with the URL and no call is made. Otherwise processCommand's call is made and its error is dropped |
| KnxTemplate.NameAlreadyThere | cmd/kizcmd/cmd/cmd_knx_template.go:99-117 | cmdAlreadyThere and stateAlreadyThere are true iff some binding of the list has that name |
| KnxTemplate.Generated | cmd/kizcmd/cmd/cmd_knx_template.go:49-81 | the generated bindings have non-empty, pairwise distinct names, all at group address 0. A name is bound iff it is non-empty and some definition maps to it |
| KnxTemplate.ConfigMap | cmd/kizcmd/cmd/cmd_knx_template.go:26-32 | every configured device's URL is a key; each key maps to a configured device whose URL is that key |
| KnxTemplate.ConfigMapLastWins | cmd/kizcmd/cmd/cmd_knx_template.go:31 | when several configured devices share a URL, the last one is kept |
| KnxTemplate.AddCloud | cmd/kizcmd/cmd/cmd_knx_template.go:39-86 | devices already in the map are kept unchanged, and if every entry is keyed by its URL, that stays true |
| KnxTemplate.AddCloudEntries | cmd/kizcmd/cmd/cmd_knx_template.go:39-86 | a URL the box adds is bound to the new entry of the first box device with that URL that binds at least one command or state |
| KnxTemplate.AddCloudCovers | cmd/kizcmd/cmd/cmd_knx_template.go:83-85 | every box device whose entry binds at least one command or state ends up with its URL in the map |
| KnxTemplate.MergedKeyedByURL | cmd/kizcmd/cmd/cmd_knx_template.go:20-86 | in the merged map every entry is keyed by its own URL, and every configured URL is kept with a configured device |
| KnxTemplate.NewEntriesWellFormed | cmd/kizcmd/cmd/cmd_knx_template.go:44-85 | an entry the box added binds at least one command or state, and its command and state names are non-empty, distinct and at group address 0 |
| KnxTemplate.Bind | cmd/kizcmd/cmd/cmd_knx_template.go:49-64 | the append loop builds exactly the generated bindings |
| KnxTemplate.KeyByURL | cmd/kizcmd/cmd/cmd_knx_template.go:26-32 | a configured device without URL ends the command, reporting the first such device; otherwise the map is ConfigMap of the configured devices |
| KnxTemplate.AddDevices | cmd/kizcmd/cmd/cmd_knx_template.go:39-86 | the loop over the box devices builds exactly AddCloud of the configured map |
| KnxTemplate.ListValues | cmd/kizcmd/cmd/cmd_knx_template.go:91-94 | the saved list holds each value of the map exactly once, in some order |
| KnxTemplate.Merge | cmd/kizcmd/cmd/cmd_knx_template.go:16-96 | an error reading the configuration or the box devices, or a configured device without URL, ends the command with that error. Otherwise the list saved holds each entry of the merged map exactly once |

## Left out

- HTTP itself is left out: request construction, `http.NewRequest` failures, `url.QueryEscape`, response bodies and `Body.Close`. It is replaced by the abstract server and by the decoded views of a body that the core consults (the error envelope and the `{id}` of a registration).
- JSON encoding and decoding are abstracted. An event element says whether it decodes as an object, what its `name` holds and whether it decodes as its kind; the event structs' fields are not modelled.
- The cookie jar is a map from cookie name to value. Cookie expiry, path and domain matching, and the public-suffix list are not modelled, and neither is `cookiejar.New`, which cannot fail with the options used. Seeding a session assumes an absolute http or https base URL: `SetCookies` ignores a URL with another scheme or without a host, so a client whose base URL is, say, empty keeps no seeded session, which the model does not reflect.
- Text.ToLower: lower-cases ASCII letters only, where Go's `strings.ToLower` also folds other Unicode letters.
- `url.Parse` of the base URL is a boolean parameter (`baseURLParses`), because URL syntax is library code.
- The mutex around `SetListenerID` and `ListenerID` is left out (concurrency); the listener id is a plain field.
- Logging, `fmt.Println` and the debug and trace output are left out; they have no observable effect on results.
- `Bridge.Start` and the KNX router setup are left out: the function is a goroutine and channel loop.
- The single-request wrappers (`GetDevice`, `GetDevices`, `Execute`, `GetDeviceState`, `GetActionGroups`, `RefreshStates`, `getSetup`) are not modelled as requests. `GetDevice`, `GetDevices` and `Execute` enter the model as parameters of the operations that call them.
- `knxbridge.ConfigNameForKizCommand` and `ConfigNameForKizState` are not part of this model; they are function parameters of the template merge.
- `config.Devices` and `config.SetDevices` are file I/O. The merge takes the configured devices as a parameter and returns the list it would save.
- The `log.Fatal` calls of the template command end the process; the merge returns them as a Failure instead.
- The error for a configured device without URL carries the device's label; the command's `log.Fatal` prints the whole device with `%+v`.
- Session.DoWithAuthResult: a send is logged with only the session the jar holds when it is sent. In Go every DoWithAuth revision sends the same `*http.Request` a second time, and `http.Client` adds the jar's cookies to that request in place. So after a stale session, the retry's Cookie header carries the first send's JSESSIONID and then the login's. A request with a body, such as `Execute`, is also sent again with its body already read. The model does not capture either point.
- `SaveSessionID` writes the configuration file; `RootApi.API` keeps the saved session in the field `savedSessionID` instead.
- group.Command and group.State have the same fields, so both are modelled by one type, `KnxConfig.Binding`. `KnxTemplate.NameAlreadyThere` stands for both cmdAlreadyThere and stateAlreadyThere.
- Domain command names: the Go definitions of the `Cmd*` constants are not among the source files of this model; `Domain` defines them itself. `CmdOn == "on"` is fixed by kizcool_test.go:188. The other six values ("off", "open", "close", "stop", "setIntensity" and "setClosure") are assumed to be the box's command names; the "setIntensity" case at knxbridge/knxbridge.go:130 names a KNX configuration command, not this constant.
- KnxTemplate.ListValues: the order of the saved list follows Go's map iteration, which is unspecified. The model picks keys in an unspecified order and states only that each entry appears once.
- KnxTemplate.ListValues: requires every map entry to be keyed by its own URL, which is what Merge hands it (`KnxTemplate.MergedKeyedByURL`).
- cmd/kizknx/main.go, output.go, the configuration packages and the other CLI commands are not part of this model. They are entry points, printing and file I/O.
- Behaviours of the code a reader may not expect, modelled as written:
  - `unregisterListener` (api/api.go:224-240) clears the stored id only after the request succeeded, not regardless of the reply.
  - `UnmarshalJSON` (events.go:100-139) keeps the events appended before a failing element, not an empty list.
  - The event kinds are the seven names of the switch (events.go:115-129); CommandExecutionStateChanged, GatewayDown and GatewayAlive have no case there and are unknown events.
  - The rate-limit marker is matched case-sensitively as "Too many requests" (api/api.go:294).
  - `processCommand` (knxbridge/knxbridge.go:143-144) returns an "Unhandled command" error for an unknown command name; `processKnxEvent` then drops it.
  - `PollEvents` drops a first-fetch error other than an unknown listener rather than returning it (see Findings).
- Api.Client.PollEvents: models the code as written, including the dropped fetch error listed under Findings; `Api.PollEventsReporting` is the corrected form.

## Findings

| source | as written | input that shows it | evidently intended | confidence | as-written member | corrected member |
|---|---|---|---|---|---|---|
| api/api.go:262-274 | when the first fetch fails with any error other than NoRegisteredEventListenerError, PollEvents falls through to `return resp, nil` with `resp == nil` | a box that accepts the registration and whose connection then drops: the fetch fails in transport, and PollEvents returns no response and no error, with listener "L1" stored | the fetch error is returned to the caller | not executed | Api.PollEventsAsWritten (Api.PollEventsSwallowsTransportFailure, Api.PollEventsDropsOtherFetchErrors) | Api.PollEventsReporting (Api.PollEventsReportingSurfacesErrors) |
