# eces-nbi: the northbound gateway of the tenant manager

The northbound interface (NBI) is an HTTP/JSON gateway. Tenants call it to
create and remove their resources: tenants, virtual machines (VMs) and
flows. The gateway keeps three id-indexed maps: tenants, VMs and flows.
It also attaches a secret *cookie* to each tenant. Each of the six POST
routes does three things in order:

1. It parses the body as a JSON object and reads every key it needs.
2. It checks the kind of each value, then (for all routes except newTenant)
   that the tenant or resource id exists, then the caller's cookie.
   newTenant instead checks the name's length and has no id or cookie to
   check. newFlow checks eight of its fields before the tenant and the
   cookie, and the other five (source, destination, rate, burst and
   latency) only after the caller is authorized.
3. It asks the tenant manager (the backend) to create or delete the
   resource, then updates its own map.

The routes are `/newTenant`, `/newVM`, `/newFlow`, `/removeFlow`,
`/removeVM` and `/removeTenant`. The first problem found ends the request
with an error, and an error leaves the maps untouched.

The model has nine modules, one per file:

- `Results` (`results.dfy`): `Option` and `Result` with failure propagation.
- `Json` (`json.dfy`): the request payload. It holds the Java boxed kinds a
  value can take (`Integer`, `Long`, `Double`, `String`, ...) and Java's
  32- and 64-bit integers. `JDouble` stands for every `Number` other than
  `Integer` and `Long`. `Boxed` picks `Integer` or `Long` for an integer
  literal as the parser does. The keys the handlers read are an
  enumeration. An unparsable body is a separate case.
- `Cookies` (`cookie.dfy`): the `Cookie` component, and how a fresh cookie
  is drawn with Java's `Math.abs`, 32-bit wrap-around included.
- `Errors` (`errors.dfy`): the reasons a request is refused.
- `FieldDecoder` (`decoder.dfy`): decoders for single values. These cover
  the name rule, which boxed kinds are accepted for each field, and the
  rate/burst cast.
- `Requests` (`requests.dfy`): the shape stage of each handler, which
  consults no state. It checks that every key is present, then the kind of
  each value the handler checks before authorization, in the handler's
  order. For newFlow the five late fields are passed on unchecked.
- `Handlers` (`handlers.dfy`): the gateway's state as a value
  (`Registry`) and each handler as a function from the state and its
  inputs to the response and the next state. `NewTenantSpec` takes the
  body, the backend's answer and the random value for the cookie.
  `NewVmSpec` takes the body and the backend's answer. `NewFlowSpec` takes
  the outcome of newFlow's shape stage and the backend's answer. The three
  removal specs take only the body.
- `Gateway` (`gateway.dfy`): the class `NBISystem`. Its four map fields are
  updated in place by the six route methods (`NewTenant`, `NewVm`,
  `NewFlow`, `RemoveFlow`, `RemoveVm`, `RemoveTenant`), each proved equal
  to its function in `Handlers`. `NewFlow` delegates to `CreateFlow`.
  `ValidateFlow` and `FlowEndpoints` are query methods that run newFlow's
  checks on the live maps without changing them.
- `HandlerProperties` (`properties.dfy`): properties that span several
  calls or all payloads.

## Model

| member | source | states |
|---|---|---|
| Cookies.Cookie.GetCookie | src/main/java/de/tum/ei/lkn/eces/nbi/Cookie.java:19-21 | the getter returns the very value the cookie was built from |
| Cookies.Wrap32 | src/main/java/de/tum/ei/lkn/eces/nbi/NBISystem.java:129 | the result is congruent to its argument modulo 2^32, i.e. Java `int` wrap-around |
| Cookies.Abs | src/main/java/de/tum/ei/lkn/eces/nbi/NBISystem.java:129 | `Math.abs(int)`: non-negative and equal to ±x for every x except `Integer.MIN_VALUE`, which maps to itself |
| Cookies.Issue | src/main/java/de/tum/ei/lkn/eces/nbi/NBISystem.java:129 | a new tenant's cookie is ±r; it is non-negative unless r is `Integer.MIN_VALUE`, in which case it is negative |
| FieldDecoder.Parsed | src/main/java/de/tum/ei/lkn/eces/nbi/NBISystem.java:68-78 | a body yields its fields exactly when it is a JSON object; otherwise the error is the "not a valid JSON format" one |
| FieldDecoder.RequireKeys | src/main/java/de/tum/ei/lkn/eces/nbi/NBISystem.java:147-158 | succeeds exactly when every key is present; otherwise it reports the first absent key in reading order |
| FieldDecoder.AsString | src/main/java/de/tum/ei/lkn/eces/nbi/NBISystem.java:160-165 | accepts exactly `String` values, unchanged; anything else is a type error for that key |
| FieldDecoder.AsLong | src/main/java/de/tum/ei/lkn/eces/nbi/NBISystem.java:167-176 | an id accepts exactly `Integer` or `Long` and keeps its mathematical value |
| FieldDecoder.AsInt | src/main/java/de/tum/ei/lkn/eces/nbi/NBISystem.java:178-183 | a cookie (likewise a port or the protocol) accepts only an `Integer`, unchanged; a `Long` or `Double` is a type error |
| FieldDecoder.AsNumber | src/main/java/de/tum/ei/lkn/eces/nbi/NBISystem.java:396-401 | latency accepts exactly `Integer`, `Long` or `Double` and passes its value on |
| FieldDecoder.TenantName | src/main/java/de/tum/ei/lkn/eces/nbi/NBISystem.java:108-118 | accepted exactly when 1 to 15 characters long; an empty name and a longer name fail with their own reasons |
| FieldDecoder.AsIp | src/main/java/de/tum/ei/lkn/eces/nbi/NBISystem.java:270-282 | accepted exactly when it is a `String` the resolver accepts; a non-string is a type error and an unresolvable string is an address error |
| FieldDecoder.RateByBurstKind | src/main/java/de/tum/ei/lkn/eces/nbi/NBISystem.java:372-381 | succeeds iff the rate is integral and the two values are not integers of different boxed kinds. A non-integral rate is a type error, and two integral values of different boxed kinds end in a class-cast failure (that iff is also stated). On success with an integral burst, the rate keeps its value. When burst is not integral the rate passed on is 0, and the burst check fails next |
| FieldDecoder.RateAgreesWithOwnDecoding | src/main/java/de/tum/ei/lkn/eces/nbi/NBISystem.java:372-393 | once burst decodes, a successful rate equals the rate decoded on its own; the same holds whenever both values have the same boxed kind |
| Requests.DecodeNewTenant | src/main/java/de/tum/ei/lkn/eces/nbi/NBISystem.java:85-118 | success iff the body is an object with a string name of 1 to 15 characters, and the name is passed on as given. Each failure is pinned in the handler's order: unparsable, then missing name, then not a string, then empty, then too long |
| Requests.DecodeNewVm | src/main/java/de/tum/ei/lkn/eces/nbi/NBISystem.java:141-183 | success iff all three keys are present, the name is a string of any length, the tenant id is integral and the cookie is an `Integer`; decoded values equal the payload's. Each error is pinned in order: unparsable, then the first missing key, then name, tenant id and cookie type errors (a `Long` or `Double` cookie is a cookie type error) |
| Requests.DecodeFlowFields | src/main/java/de/tum/ei/lkn/eces/nbi/NBISystem.java:245-317 | success iff the eight fields checked before authorization have the right kinds and both addresses resolve; the decoded values equal the payload's, and the five late fields are passed on raw. A failure happens exactly when `FirstFlowFieldError` finds a bad field, and it is that field's error: name, tenantId, cookie, srcIp, dstIp, srcPort, dstPort, protocol, in the handler's order |
| Requests.DecodeFlowHeader | src/main/java/de/tum/ei/lkn/eces/nbi/NBISystem.java:216-317 | newFlow's shape stage succeeds iff the body is an object holding all 13 keys with well-kinded early fields. An unparsable body is the malformed error, then the first missing key is reported; with all keys present the result is exactly `DecodeFlowFields`'s |
| Requests.DecodeRemoval | src/main/java/de/tum/ei/lkn/eces/nbi/NBISystem.java:421-454 | success iff the id key and the cookie are present, the id is integral and the cookie is an `Integer`; decoded values equal the payload's. Each error is pinned in order: unparsable, then the first missing key, then the id type error, then the cookie type error |
| Requests.NonIntegerCookieRejected | src/test/java/de/tum/ei/lkn/eces/nbi/NBISystemTest.java:686-693 | an instance of the removal tests' type checks: with a valid id, a `Long` or `Double` cookie is a cookie type error |
| Requests.FirstFlowFieldError | src/main/java/de/tum/ei/lkn/eces/nbi/NBISystem.java:245-317 | finds no error exactly when the eight early newFlow fields are acceptable (`FlowFieldsOk`); any error it finds is a shape error |
| Handlers.ManagementText | src/main/java/de/tum/ei/lkn/eces/nbi/NBISystem.java:209 | a reported management connection is returned as is; a null one is rendered as "unknown" |
| Handlers.NewTenantSpec | src/main/java/de/tum/ei/lkn/eces/nbi/NBISystem.java:80-134 | success iff the payload decodes and the backend grants an id. On success, exactly that id is added to the tenants and cookies; the cookie returned is the one stored, equal to `Math.abs(random)`, and VMs and flows are untouched. On failure the state is unchanged. Validity is preserved |
| Handlers.CheckNewVm | src/main/java/de/tum/ei/lkn/eces/nbi/NBISystem.java:186-197 | after the shape stage, an unknown tenant is an invalid id and a wrong cookie is an invalid cookie; it passes iff the tenant exists and the cookie is its own |
| Handlers.NewVmSpec | src/main/java/de/tum/ei/lkn/eces/nbi/NBISystem.java:136-210 | success iff the checks pass and the backend grants a VM; exactly that VM is stored, owned by the calling tenant, and the answer carries the rendered management connection; on failure the state is unchanged |
| Handlers.CheckFlowEndpoints | src/main/java/de/tum/ei/lkn/eces/nbi/NBISystem.java:334-401 | after authorization it passes iff both endpoints name stored VMs of the caller's tenant, rate and burst are integers boxed alike, and latency is a number. Each error is pinned in the handler's order: source kind, then source owner, then destination kind, then destination owner, then rate (including the class-cast), then burst, then latency. A result carries exactly those VMs, the request's name, addresses, ports and protocol, the rate and burst values, and the latency as `AsNumber` decodes it |
| Handlers.CheckNewFlow | src/main/java/de/tum/ei/lkn/eces/nbi/NBISystem.java:320-401 | a shape error is reported first; then an unknown tenant, then a wrong cookie; only an authorized caller reaches the endpoint checks; success implies both endpoints belong to the caller's tenant |
| Handlers.NewFlowSpec | src/main/java/de/tum/ei/lkn/eces/nbi/NBISystem.java:403-413 | success iff the checks pass and the backend grants an id; exactly that flow is added and the other maps are untouched; on failure the state is unchanged; every stored flow joins VMs of one tenant |
| Handlers.FlowAdditionKeepsValid | src/main/java/de/tum/ei/lkn/eces/nbi/NBISystem.java:411 | adding a flow whose endpoints share a tenant keeps the registry valid |
| Handlers.CheckRemoveFlow | src/main/java/de/tum/ei/lkn/eces/nbi/NBISystem.java:457-468 | an unknown flow is an invalid id; it passes iff the flow exists and the cookie is that of its source VM's tenant |
| Handlers.RemoveFlowSpec | src/main/java/de/tum/ei/lkn/eces/nbi/NBISystem.java:416-474 | success iff the checks pass; exactly that flow's key leaves the flow map, every other entry and map is unchanged; on failure nothing changes |
| Handlers.CheckRemoveVm | src/main/java/de/tum/ei/lkn/eces/nbi/NBISystem.java:517-528 | an unknown VM is an invalid id; it passes iff the VM exists and the cookie is its tenant's |
| Handlers.RemoveVmSpec | src/main/java/de/tum/ei/lkn/eces/nbi/NBISystem.java:476-534 | success iff the checks pass; exactly that VM's key leaves the VM map; flows that use it stay; on failure nothing changes |
| Handlers.CheckRemoveTenant | src/main/java/de/tum/ei/lkn/eces/nbi/NBISystem.java:577-588 | an unknown tenant is an invalid id; it passes iff the tenant exists and the cookie is its own |
| Handlers.RemoveTenantSpec | src/main/java/de/tum/ei/lkn/eces/nbi/NBISystem.java:536-594 | success iff the checks pass; exactly that tenant's key leaves the tenant map; its VMs, flows and cookie stay; on failure nothing changes |
| Json.Boxed | src/test/java/de/tum/ei/lkn/eces/nbi/NBISystemTest.java:148 | an integer in `int` range is boxed as an `Integer` with the same value, and any other `long` as a `Long` |
| HandlerProperties.BoxedIdDecodes | src/main/java/de/tum/ei/lkn/eces/nbi/NBISystem.java:167-176 | an id sent back as a bare number decodes to itself as a `long`, whichever box the parser picked |
| HandlerProperties.RemovalBodyDecodes | src/main/java/de/tum/ei/lkn/eces/nbi/NBISystem.java:427-454 | a removal payload holding an id (boxed as the parser boxes it: `Integer` in `int` range, else `Long`) and an `Integer` cookie decodes to exactly those |
| HandlerProperties.RemoveFlowTwice | src/main/java/de/tum/ei/lkn/eces/nbi/NBISystem.java:457-471 | repeating a successful flow removal answers "invalid flow id" |
| HandlerProperties.RemoveVmTwice | src/main/java/de/tum/ei/lkn/eces/nbi/NBISystem.java:517-531 | repeating a successful VM removal answers "invalid VM id" |
| HandlerProperties.RemoveTenantTwice | src/main/java/de/tum/ei/lkn/eces/nbi/NBISystem.java:577-591 | repeating a successful tenant removal answers "invalid tenant id" |
| HandlerProperties.OwnerRemovesTenant | src/main/java/de/tum/ei/lkn/eces/nbi/NBISystem.java:577-591 | a tenant's own cookie removes it, and only it |
| HandlerProperties.TenantRoundTrip | src/main/java/de/tum/ei/lkn/eces/nbi/NBISystem.java:108-133 | a tenant created with a valid name answers `Math.abs(random)` as its cookie, and that id and cookie remove it again |
| HandlerProperties.BadTenantNameRejected | src/test/java/de/tum/ei/lkn/eces/nbi/NBISystemTest.java:161-164 | an empty or over-long name is refused with its own reason, whatever the backend would answer, and the state is unchanged |
| HandlerProperties.OwnerRemovesVm | src/main/java/de/tum/ei/lkn/eces/nbi/NBISystem.java:517-531 | the cookie of a VM's tenant removes that VM, and only it |
| HandlerProperties.VmRoundTrip | src/main/java/de/tum/ei/lkn/eces/nbi/NBISystem.java:160-207 | an authorized caller can create a VM with any name, even the empty one; it is stored as given and the same cookie removes it |
| HandlerProperties.OwnerRemovesFlow | src/main/java/de/tum/ei/lkn/eces/nbi/NBISystem.java:457-471 | the cookie of a flow's source-VM tenant removes that flow, and only it |
| HandlerProperties.FlowRoundTrip | src/main/java/de/tum/ei/lkn/eces/nbi/NBISystem.java:327-331 | a created flow is removed by the cookie it was created with |
| HandlerProperties.EndpointsOfTwoTenantsRejected | src/main/java/de/tum/ei/lkn/eces/nbi/NBISystem.java:345-369 | for an authorized caller, endpoints of two different tenants fail with the invalid source or destination VM error |
| HandlerProperties.AuthorizedSameTenantFlowCreated | src/main/java/de/tum/ei/lkn/eces/nbi/NBISystem.java:334-413 | for any decoded header: an authorized caller whose endpoints are VMs of its tenant, with rate and burst boxed alike and a numeric latency, gets `FlowCreated(id)` for the granted id, and the stored flow joins two VMs of that tenant |
| HandlerProperties.SameTenantFlowAccepted | src/main/java/de/tum/ei/lkn/eces/nbi/NBISystem.java:320-413 | a well-formed request from an authorized caller whose endpoints are both VMs of its tenant, with rate and burst boxed alike and a numeric latency, creates the flow the backend grants, between VMs of that tenant |
| HandlerProperties.CrossTenantFlowRejected | src/test/java/de/tum/ei/lkn/eces/nbi/NBISystemTest.java:528-541 | a flow between VMs of two tenants is always refused; an authorized caller is told which endpoint is wrong |
| HandlerProperties.NewFlowChecksInOrder | src/main/java/de/tum/ei/lkn/eces/nbi/NBISystem.java:223-401 | newFlow's error comes from the shape stage iff the payload is malformed, from authorization iff it is well-formed but unauthorized, and from the late checks iff the caller is authorized |
| HandlerProperties.StagesInOrder | src/main/java/de/tum/ei/lkn/eces/nbi/NBISystem.java:320-401 | the same stage order, for any outcome of the shape stage |
| HandlerProperties.ShapeErrorsAreEarly | src/main/java/de/tum/ei/lkn/eces/nbi/NBISystem.java:223-317 | every shape error is classified in the shape stage |
| HandlerProperties.LateErrorsAreLate | src/main/java/de/tum/ei/lkn/eces/nbi/NBISystem.java:334-401 | every endpoint, rate, burst or latency error is classified in the late stage |
| HandlerProperties.FlowShapeErrorIgnoresState | src/main/java/de/tum/ei/lkn/eces/nbi/NBISystem.java:223-317 | a malformed flow payload gets the same shape error in every state |
| HandlerProperties.TenantRemovalDoesNotCascade | src/main/java/de/tum/ei/lkn/eces/nbi/NBISystem.java:590-591 | removing a tenant leaves its VMs in the gateway, and its cookie still removes them |
| Gateway.NBISystem.constructor | src/main/java/de/tum/ei/lkn/eces/nbi/NBISystem.java:42-47 | the gateway starts with empty maps, in a valid state |
| Gateway.NBISystem.NewTenant | src/main/java/de/tum/ei/lkn/eces/nbi/NBISystem.java:80-134 | the answer and the new maps are those of `Handlers.NewTenantSpec`; validity is kept |
| Gateway.NBISystem.NewVm | src/main/java/de/tum/ei/lkn/eces/nbi/NBISystem.java:136-210 | the answer and the new maps are those of `Handlers.NewVmSpec`; validity is kept |
| Gateway.NBISystem.NewFlow | src/main/java/de/tum/ei/lkn/eces/nbi/NBISystem.java:212-414 | the answer and the new maps are those of `Handlers.NewFlowSpec` applied to the shape stage's outcome; validity is kept |
| Gateway.NBISystem.CreateFlow | src/main/java/de/tum/ei/lkn/eces/nbi/NBISystem.java:320-413 | given the shape stage's outcome, the answer and new maps are those of `Handlers.NewFlowSpec` |
| Gateway.NBISystem.ValidateFlow | src/main/java/de/tum/ei/lkn/eces/nbi/NBISystem.java:320-401 | the authorization and late checks, on the live maps, give the same result as `Handlers.CheckNewFlow`; nothing changes |
| Gateway.NBISystem.FlowEndpoints | src/main/java/de/tum/ei/lkn/eces/nbi/NBISystem.java:334-401 | the endpoint, rate, burst and latency checks give the same result as `Handlers.CheckFlowEndpoints`; nothing changes |
| Gateway.NBISystem.RemoveFlow | src/main/java/de/tum/ei/lkn/eces/nbi/NBISystem.java:416-474 | the answer and the new maps are those of `Handlers.RemoveFlowSpec`; validity is kept |
| Gateway.NBISystem.RemoveVm | src/main/java/de/tum/ei/lkn/eces/nbi/NBISystem.java:476-534 | the answer and the new maps are those of `Handlers.RemoveVmSpec`; validity is kept |
| Gateway.NBISystem.RemoveTenant | src/main/java/de/tum/ei/lkn/eces/nbi/NBISystem.java:536-594 | the answer and the new maps are those of `Handlers.RemoveTenantSpec`; validity is kept |

Points where the code behaves otherwise than one might expect of such a
gateway, which the model follows:

- Removing a tenant or a VM does not cascade through the gateway's own
  maps. The tenant's VMs and flows stay, and so does its cookie
  (`TenantRemovalDoesNotCascade`).
- The gateway does not check that tenant names are unique. That check
  belongs to the tenant manager, and its refusal is the `Refused` answer
  of the backend.
- A cookie is not always non-negative. `Math.abs` of `Integer.MIN_VALUE`
  stays negative (`Cookies.Issue`).
- A VM name has no length rule, and the empty name is accepted
  (`VmRoundTrip`).

## Left out

- HTTP transport (Spark routes, status codes, response content types),
  logging and concurrent requests are not modelled. A halted request is
  represented by its `Errors.Error` kind, without the message text.
- The tenant manager (`createTenant`, `createVirtualMachine`, `createFlow`)
  is not part of this model. Each handler receives its answer as a
  `Backend` parameter: a granted id or record, or the text of its
  exception.
- The removal handlers call `deleteFlow`, `deleteVM` and `deleteTenant`
  without catching their exceptions. The model assumes those calls return
  normally, and the calls are left out.
- The payloads the round-trip and removal lemmas build (`VmBody`,
  `RemovalBody`) carry every id boxed by `Boxed`, so an id sent back as a
  bare number is covered whether the parser yields an `Integer` or a
  `Long`. The lemmas do not cover a `Long`-boxed id in `int` range, which
  the parser never produces. The removal specs themselves accept either
  box.
- HandlerProperties.TenantRemovalDoesNotCascade: the cookie is a component
  of the tenant's entity. The model assumes that `deleteTenant` leaves that
  component attached. The lemma, and the `Removed` answer to a later
  removal of an orphaned VM or flow, rest on this assumption. If the tenant
  manager detached the cookie, the Java gateway would instead dereference null
  there and answer with a server error.
- `InetAddress` values are opaque: the model keeps only whether the
  resolver accepted the text and what it returned, IPv4 or IPv6.
- The cookie's randomness (`new Random().nextInt()`) is the `random`
  parameter.
- `Inet4Address.getByName` (inherited from `InetAddress`) is the `resolve`
  parameter. Address parsing and host-name lookup are not modelled.
- The JSON parser is not part of this model. A body is either unparsable
  or a map from the keys the handlers read to boxed values. Keys the
  handlers never read are not represented. Nested objects and arrays
  appear only as values of a kind that every check refuses; their contents
  play no part.
- The entity/component machinery behind `cookieMapper` is modelled as a
  map from tenant id to `Cookie`. Two tenant objects with the same id are
  not distinguished.
- FieldDecoder.TenantName: Java counts a name's length in UTF-16 code
  units, while the model counts characters. The two differ for characters
  outside the Basic Multilingual Plane.
- FieldDecoder.AsNumber: a `Long` latency is passed on exactly, not
  rounded to the nearest `double` as `doubleValue()` does; `Double`s are
  modelled as reals.
- Handlers.NewTenantSpec: the tenant stored under the backend's id is
  rebuilt from that id and the requested name. The backend's tenant
  object is otherwise not modelled, and the same holds for VMs and flows.
- The class-cast failure of the rate field (`ClassCast`) surfaces in the
  Java gateway as an uncaught exception, that is, a server error. The model
  reports it as an error that leaves the state unchanged, as the Java
  gateway does.
