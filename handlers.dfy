/**
 * The gateway's state as a value, and each handler as a function from the
 * state, the request and the backend's answer to a response and the next
 * state. These are the specifications the imperative handlers of
 * `Gateway.NBISystem` are proved against.
 */
module Handlers {
  import opened Results
  import opened Json
  import opened Errors
  import opened Cookies
  import opened FieldDecoder
  import opened Requests

  datatype Tenant = Tenant(id: int64, name: string)

  /** A VM keeps its owner for life; `management` is what the backend reported, if anything. */
  datatype Vm = Vm(id: int64, name: string, tenantId: int64, management: Option<string>)

  /** Everything the flow handler hands to the backend. */
  datatype FlowParams = FlowParams(
    name: string, source: Vm, destination: Vm, srcIp: InetAddress, dstIp: InetAddress,
    srcPort: int32, dstPort: int32, protocol: int32, rate: int64, burst: int64, latency: real)

  datatype Flow = Flow(id: int64, params: FlowParams)

  /** What the VM handler hands to the backend. */
  datatype VmRequest = VmRequest(tenant: Tenant, name: string)

  /**
   * The backend's answer to a creation: the resource it made, or the
   * message of the exception it threw.
   */
  datatype Backend<+T> = Granted(grant: T) | Refused(reason: string)

  datatype VmGrant = VmGrant(id: int64, management: Option<string>)

  /** The JSON objects a successful call answers with. */
  datatype Response =
    | TenantCreated(id: int64, cookie: int32)
    | VmCreated(id: int64, management: string)
    | FlowCreated(id: int64)
    | Removed

  /** The management connection as rendered in the response; null becomes "unknown". */
  function ManagementText(m: Option<string>): (t: string)
    ensures m.Some? ==> t == m.value
    ensures m.None? ==> t == "unknown"
  {
    match m
    case None => "unknown"
    case Some(s) => s
  }

  /**
   * The three id-indexed maps and the cookie attached to each tenant. No
   * handler of the gateway detaches a cookie, and the tenant manager's
   * deletion of a tenant is taken to leave its cookie attached too.
   */
  datatype Registry = Registry(
    tenants: map<int64, Tenant>,
    vms: map<int64, Vm>,
    flows: map<int64, Flow>,
    cookies: map<int64, Cookie>)
  {
    /**
     * Every record sits under its own id, every owner the handlers will look
     * a cookie up for has one, and every flow joins two VMs of one tenant.
     */
    predicate Valid() {
      && tenants.Keys <= cookies.Keys
      && (forall t | t in tenants :: tenants[t].id == t)
      && (forall v | v in vms :: vms[v].id == v && vms[v].tenantId in cookies)
      && (forall f | f in flows :: flows[f].id == f && FlowJoinsOneTenant(flows[f]))
    }

    predicate FlowJoinsOneTenant(flow: Flow) {
      && flow.params.source.tenantId in cookies
      && flow.params.source.tenantId == flow.params.destination.tenantId
    }

    /** `cookie` equals the secret attached to tenant `owner`. */
    predicate CookieMatches(owner: int64, cookie: int32) {
      owner in cookies && cookies[owner].GetCookie() == cookie
    }

    /** The caller may act for `tenantId`: it is a live tenant and `cookie` is its secret. */
    predicate Authorizes(tenantId: int64, cookie: int32) {
      tenantId in tenants && CookieMatches(tenantId, cookie)
    }

    /** The payload value `v` is the id, `Integer` or `Long`, of a stored VM of tenant `tenantId`. */
    predicate NamesVmOf(v: JVal, tenantId: int64) {
      match v
      case JInt(i) => i as int64 in vms && vms[i as int64].tenantId == tenantId
      case JLong(l) => l in vms && vms[l].tenantId == tenantId
      case _ => false
    }

    /** The tenant whose cookie guards a flow: the owner of its source VM. */
    function FlowOwner(id: int64): int64
      requires id in flows
    {
      flows[id].params.source.tenantId
    }
  }

  const EmptyRegistry := Registry(map[], map[], map[], map[])

  /** One handler call: what it answers and the state it leaves. */
  datatype Step = Step(result: Result<Response, Error>, after: Registry)

  // ---------------------------------------------------------------- newTenant

  function NewTenantSpec(reg: Registry, body: Body, backend: Backend<int64>, random: int32): (s: Step)
    requires reg.Valid()
    ensures s.after.Valid()
    ensures s.result.Failure? ==> s.after == reg
    ensures s.result.Success? <==> DecodeNewTenant(body).Success? && backend.Granted?
    ensures DecodeNewTenant(body).Failure? ==> s.result == Failure(DecodeNewTenant(body).error)
    ensures DecodeNewTenant(body).Success? && backend.Refused? ==>
              s.result == Failure(BackendRejected(backend.reason))
    ensures s.result.Success? ==>
              var id := backend.grant;
              && s.result.value == TenantCreated(id, Abs(random))
              && s.after.tenants.Keys == reg.tenants.Keys + {id}
              && s.after.tenants[id] == Tenant(id, DecodeNewTenant(body).value)
              && (forall t | t in reg.tenants && t != id :: s.after.tenants[t] == reg.tenants[t])
              && s.after.cookies.Keys == reg.cookies.Keys + {id}
              && s.after.cookies[id].GetCookie() == s.result.value.cookie
              && (forall t | t in reg.cookies && t != id :: s.after.cookies[t] == reg.cookies[t])
              && s.after.vms == reg.vms && s.after.flows == reg.flows
  {
    match DecodeNewTenant(body)
    case Failure(e) => Step(Failure(e), reg)
    case Success(name) =>
      match backend
      case Refused(reason) => Step(Failure(BackendRejected(reason)), reg)
      case Granted(id) =>
        var cookie := Issue(random);
        Step(Success(TenantCreated(id, cookie.GetCookie())),
             reg.(tenants := reg.tenants[id := Tenant(id, name)], cookies := reg.cookies[id := cookie]))
  }

  // -------------------------------------------------------------------- newVM

  /** newVM up to the backend call: shape, then tenant existence, then the cookie. */
  function CheckNewVm(reg: Registry, body: Body): (r: Result<VmRequest, Error>)
    requires reg.Valid()
    ensures DecodeNewVm(body).Failure? ==> r == Failure(DecodeNewVm(body).error)
    ensures DecodeNewVm(body).Success? ==>
              var f := DecodeNewVm(body).value;
              && (f.tenantId !in reg.tenants ==> r == Failure(InvalidId(TenantKind)))
              && (f.tenantId in reg.tenants && !reg.CookieMatches(f.tenantId, f.cookie) ==> r == Failure(InvalidCookie))
              && (r.Success? <==> reg.Authorizes(f.tenantId, f.cookie))
    ensures r.Success? ==>
              var f := DecodeNewVm(body).value;
              r.value.tenant == reg.tenants[f.tenantId] && r.value.tenant.id == f.tenantId && r.value.name == f.name
  {
    var f :- DecodeNewVm(body);
    if f.tenantId !in reg.tenants then Failure(InvalidId(TenantKind))
    else if reg.cookies[f.tenantId].GetCookie() != f.cookie then Failure(InvalidCookie)
    else Success(VmRequest(reg.tenants[f.tenantId], f.name))
  }

  function NewVmSpec(reg: Registry, body: Body, backend: Backend<VmGrant>): (s: Step)
    requires reg.Valid()
    ensures s.after.Valid()
    ensures s.result.Failure? ==> s.after == reg
    ensures s.result.Success? <==> CheckNewVm(reg, body).Success? && backend.Granted?
    ensures CheckNewVm(reg, body).Failure? ==> s.result == Failure(CheckNewVm(reg, body).error)
    ensures CheckNewVm(reg, body).Success? && backend.Refused? ==>
              s.result == Failure(BackendRejected(backend.reason))
    ensures s.result.Success? ==>
              var g := backend.grant;
              var req := CheckNewVm(reg, body).value;
              && s.result.value == VmCreated(g.id, ManagementText(g.management))
              && s.after.vms == reg.vms[g.id := Vm(g.id, req.name, req.tenant.id, g.management)]
              && s.after.tenants == reg.tenants && s.after.flows == reg.flows && s.after.cookies == reg.cookies
  {
    match CheckNewVm(reg, body)
    case Failure(e) => Step(Failure(e), reg)
    case Success(req) =>
      match backend
      case Refused(reason) => Step(Failure(BackendRejected(reason)), reg)
      case Granted(g) =>
        Step(Success(VmCreated(g.id, ManagementText(g.management))),
             reg.(vms := reg.vms[g.id := Vm(g.id, req.name, req.tenant.id, g.management)]))
  }

  // ------------------------------------------------------------------ newFlow

  /**
   * The checks newFlow makes once the caller is authorized, in order: the
   * source VM, the destination VM (each must belong to the tenant), then
   * rate, burst and latency.
   */
  function CheckFlowEndpoints(reg: Registry, h: FlowHeader): (r: Result<FlowParams, Error>)
    requires reg.Valid() && reg.Authorizes(h.tenantId, h.cookie)
    ensures r.Success? <==>
              && reg.NamesVmOf(h.source, h.tenantId) && reg.NamesVmOf(h.destination, h.tenantId)
              && IntegralValue(h.rate).Some? && IntegralValue(h.burst).Some? && h.rate.JInt? == h.burst.JInt?
              && IsNumber(h.latency)
    ensures IntegralValue(h.source).None? ==> r == Failure(WrongType(SourceKey))
    ensures IntegralValue(h.source).Some? && !reg.NamesVmOf(h.source, h.tenantId) ==> r == Failure(InvalidId(SourceVm))
    ensures reg.NamesVmOf(h.source, h.tenantId) ==>
              && (IntegralValue(h.destination).None? ==> r == Failure(WrongType(DestinationKey)))
              && (IntegralValue(h.destination).Some? && !reg.NamesVmOf(h.destination, h.tenantId) ==>
                    r == Failure(InvalidId(DestinationVm)))
    ensures reg.NamesVmOf(h.source, h.tenantId) && reg.NamesVmOf(h.destination, h.tenantId) ==>
              && (IntegralValue(h.rate).None? ==> r == Failure(WrongType(RateKey)))
              && (IntegralValue(h.rate).Some? && IntegralValue(h.burst).Some? && h.rate.JInt? != h.burst.JInt? ==>
                    r == Failure(ClassCast(RateKey)))
              && (IntegralValue(h.rate).Some? && IntegralValue(h.burst).None? ==> r == Failure(WrongType(BurstKey)))
              && ((IntegralValue(h.rate).Some? && IntegralValue(h.burst).Some? && h.rate.JInt? == h.burst.JInt?
                   && !IsNumber(h.latency)) ==> r == Failure(WrongType(LatencyKey)))
    ensures r.Success? ==>
              && IntegralValue(h.source) == Some(r.value.source.id as int)
              && IntegralValue(h.destination) == Some(r.value.destination.id as int)
              && r.value.source.id in reg.vms && reg.vms[r.value.source.id] == r.value.source
              && r.value.destination.id in reg.vms && reg.vms[r.value.destination.id] == r.value.destination
              && r.value.source.tenantId == h.tenantId && r.value.destination.tenantId == h.tenantId
    ensures r.Success? ==>
              && IntegralValue(h.rate) == Some(r.value.rate as int)
              && IntegralValue(h.burst) == Some(r.value.burst as int)
              && h.rate.JInt? == h.burst.JInt?
              && r.value.name == h.name && r.value.srcIp == h.srcIp && r.value.dstIp == h.dstIp
              && r.value.srcPort == h.srcPort && r.value.dstPort == h.dstPort && r.value.protocol == h.protocol
              && AsNumber(LatencyKey, h.latency) == Success(r.value.latency)
    ensures r.Failure? ==> r.error in {
              WrongType(SourceKey), InvalidId(SourceVm), WrongType(DestinationKey), InvalidId(DestinationVm),
              WrongType(RateKey), ClassCast(RateKey), WrongType(BurstKey), WrongType(LatencyKey)}
  {
    var src :- AsLong(SourceKey, h.source);
    if src !in reg.vms || reg.vms[src].tenantId != h.tenantId then Failure(InvalidId(SourceVm))
    else
      var dst :- AsLong(DestinationKey, h.destination);
      if dst !in reg.vms || reg.vms[dst].tenantId != h.tenantId then Failure(InvalidId(DestinationVm))
      else
        var rate :- RateByBurstKind(h.rate, h.burst);
        var burst :- AsLong(BurstKey, h.burst);
        var latency :- AsNumber(LatencyKey, h.latency);
        Success(FlowParams(
          h.name, reg.vms[src], reg.vms[dst], h.srcIp, h.dstIp, h.srcPort, h.dstPort, h.protocol,
          rate, burst, latency))
  }

  /**
   * newFlow up to the backend call, given the outcome of its shape stage
   * (`DecodeFlowHeader`): a shape error is reported first; then the tenant
   * and its cookie are checked; only then the late checks of
   * `CheckFlowEndpoints`.
   */
  function CheckNewFlow(reg: Registry, header: Result<FlowHeader, Error>): (r: Result<FlowParams, Error>)
    requires reg.Valid()
    ensures header.Failure? ==> r == Failure(header.error)
    ensures header.Success? ==>
              var h := header.value;
              && (h.tenantId !in reg.tenants ==> r == Failure(InvalidId(TenantKind)))
              && (h.tenantId in reg.tenants && !reg.CookieMatches(h.tenantId, h.cookie) ==> r == Failure(InvalidCookie))
              && (reg.Authorizes(h.tenantId, h.cookie) ==> r == CheckFlowEndpoints(reg, h))
    ensures r.Success? ==>
              && header.Success?
              && reg.Authorizes(header.value.tenantId, header.value.cookie)
              && r.value.source.tenantId == header.value.tenantId
              && r.value.destination.tenantId == r.value.source.tenantId
  {
    var h :- header;
    if h.tenantId !in reg.tenants then Failure(InvalidId(TenantKind))
    else if reg.cookies[h.tenantId].GetCookie() != h.cookie then Failure(InvalidCookie)
    else CheckFlowEndpoints(reg, h)
  }

  /** newFlow, given the outcome of its shape stage and the backend's answer. */
  function NewFlowSpec(reg: Registry, header: Result<FlowHeader, Error>, backend: Backend<int64>): (s: Step)
    requires reg.Valid()
    ensures s.after.Valid()
    ensures s.result.Failure? ==> s.after == reg
    ensures s.result.Success? <==> CheckNewFlow(reg, header).Success? && backend.Granted?
    ensures CheckNewFlow(reg, header).Failure? ==> s.result == Failure(CheckNewFlow(reg, header).error)
    ensures CheckNewFlow(reg, header).Success? && backend.Refused? ==>
              s.result == Failure(BackendRejected(backend.reason))
    ensures s.result.Success? ==>
              var id := backend.grant;
              && s.result.value == FlowCreated(id)
              && s.after.flows == reg.flows[id := Flow(id, CheckNewFlow(reg, header).value)]
              && s.after.tenants == reg.tenants && s.after.vms == reg.vms && s.after.cookies == reg.cookies
  {
    match CheckNewFlow(reg, header)
    case Failure(e) => Step(Failure(e), reg)
    case Success(params) =>
      match backend
      case Refused(reason) => Step(Failure(BackendRejected(reason)), reg)
      case Granted(id) =>
        var after := reg.(flows := reg.flows[id := Flow(id, params)]);
        assert after.Valid() by { FlowAdditionKeepsValid(reg, Flow(id, params)); }
        Step(Success(FlowCreated(id)), after)
  }

  lemma FlowAdditionKeepsValid(reg: Registry, flow: Flow)
    requires reg.Valid() && reg.FlowJoinsOneTenant(flow)
    ensures reg.(flows := reg.flows[flow.id := flow]).Valid()
  {
  }

  // ----------------------------------------------------------------- removals

  /** removeFlow up to the backend call: the flow must exist and the cookie be its source VM's tenant's. */
  function CheckRemoveFlow(reg: Registry, body: Body): (r: Result<int64, Error>)
    requires reg.Valid()
    ensures DecodeRemoval(body, FlowIdKey).Failure? ==> r == Failure(DecodeRemoval(body, FlowIdKey).error)
    ensures DecodeRemoval(body, FlowIdKey).Success? ==>
              var d := DecodeRemoval(body, FlowIdKey).value;
              && (d.id !in reg.flows ==> r == Failure(InvalidId(FlowKind)))
              && (d.id in reg.flows && !reg.CookieMatches(reg.FlowOwner(d.id), d.cookie) ==> r == Failure(InvalidCookie))
              && (r.Success? <==> d.id in reg.flows && reg.CookieMatches(reg.FlowOwner(d.id), d.cookie))
    ensures r.Success? ==> r.value == DecodeRemoval(body, FlowIdKey).value.id
  {
    var d :- DecodeRemoval(body, FlowIdKey);
    if d.id !in reg.flows then Failure(InvalidId(FlowKind))
    else if reg.cookies[reg.flows[d.id].params.source.tenantId].GetCookie() != d.cookie then Failure(InvalidCookie)
    else Success(d.id)
  }

  function RemoveFlowSpec(reg: Registry, body: Body): (s: Step)
    requires reg.Valid()
    ensures s.after.Valid()
    ensures CheckRemoveFlow(reg, body).Failure? ==> s == Step(Failure(CheckRemoveFlow(reg, body).error), reg)
    ensures s.result.Success? <==> CheckRemoveFlow(reg, body).Success?
    ensures s.result.Success? ==>
              var id := CheckRemoveFlow(reg, body).value;
              && s.result.value == Removed
              && id in reg.flows && s.after.flows.Keys == reg.flows.Keys - {id}
              && (forall f | f in s.after.flows :: s.after.flows[f] == reg.flows[f])
              && s.after.tenants == reg.tenants && s.after.vms == reg.vms && s.after.cookies == reg.cookies
  {
    match CheckRemoveFlow(reg, body)
    case Failure(e) => Step(Failure(e), reg)
    case Success(id) => Step(Success(Removed), reg.(flows := reg.flows - {id}))
  }

  /** removeVM up to the backend call: the VM must exist and the cookie be its tenant's. */
  function CheckRemoveVm(reg: Registry, body: Body): (r: Result<int64, Error>)
    requires reg.Valid()
    ensures DecodeRemoval(body, VmIdKey).Failure? ==> r == Failure(DecodeRemoval(body, VmIdKey).error)
    ensures DecodeRemoval(body, VmIdKey).Success? ==>
              var d := DecodeRemoval(body, VmIdKey).value;
              && (d.id !in reg.vms ==> r == Failure(InvalidId(VmKind)))
              && (d.id in reg.vms && !reg.CookieMatches(reg.vms[d.id].tenantId, d.cookie) ==> r == Failure(InvalidCookie))
              && (r.Success? <==> d.id in reg.vms && reg.CookieMatches(reg.vms[d.id].tenantId, d.cookie))
    ensures r.Success? ==> r.value == DecodeRemoval(body, VmIdKey).value.id
  {
    var d :- DecodeRemoval(body, VmIdKey);
    if d.id !in reg.vms then Failure(InvalidId(VmKind))
    else if reg.cookies[reg.vms[d.id].tenantId].GetCookie() != d.cookie then Failure(InvalidCookie)
    else Success(d.id)
  }

  function RemoveVmSpec(reg: Registry, body: Body): (s: Step)
    requires reg.Valid()
    ensures s.after.Valid()
    ensures CheckRemoveVm(reg, body).Failure? ==> s == Step(Failure(CheckRemoveVm(reg, body).error), reg)
    ensures s.result.Success? <==> CheckRemoveVm(reg, body).Success?
    ensures s.result.Success? ==>
              var id := CheckRemoveVm(reg, body).value;
              && s.result.value == Removed
              && id in reg.vms && s.after.vms.Keys == reg.vms.Keys - {id}
              && (forall v | v in s.after.vms :: s.after.vms[v] == reg.vms[v])
              && s.after.tenants == reg.tenants && s.after.flows == reg.flows && s.after.cookies == reg.cookies
  {
    match CheckRemoveVm(reg, body)
    case Failure(e) => Step(Failure(e), reg)
    case Success(id) => Step(Success(Removed), reg.(vms := reg.vms - {id}))
  }

  /** removeTenant up to the backend call: the tenant must exist and the cookie be its own. */
  function CheckRemoveTenant(reg: Registry, body: Body): (r: Result<int64, Error>)
    requires reg.Valid()
    ensures DecodeRemoval(body, TenantIdKey).Failure? ==> r == Failure(DecodeRemoval(body, TenantIdKey).error)
    ensures DecodeRemoval(body, TenantIdKey).Success? ==>
              var d := DecodeRemoval(body, TenantIdKey).value;
              && (d.id !in reg.tenants ==> r == Failure(InvalidId(TenantKind)))
              && (d.id in reg.tenants && !reg.CookieMatches(d.id, d.cookie) ==> r == Failure(InvalidCookie))
              && (r.Success? <==> reg.Authorizes(d.id, d.cookie))
    ensures r.Success? ==> r.value == DecodeRemoval(body, TenantIdKey).value.id
  {
    var d :- DecodeRemoval(body, TenantIdKey);
    if d.id !in reg.tenants then Failure(InvalidId(TenantKind))
    else if reg.cookies[d.id].GetCookie() != d.cookie then Failure(InvalidCookie)
    else Success(d.id)
  }

  /** The tenant alone leaves the gateway's maps: its VMs, flows and cookie stay. */
  function RemoveTenantSpec(reg: Registry, body: Body): (s: Step)
    requires reg.Valid()
    ensures s.after.Valid()
    ensures CheckRemoveTenant(reg, body).Failure? ==> s == Step(Failure(CheckRemoveTenant(reg, body).error), reg)
    ensures s.result.Success? <==> CheckRemoveTenant(reg, body).Success?
    ensures s.result.Success? ==>
              var id := CheckRemoveTenant(reg, body).value;
              && s.result.value == Removed
              && id in reg.tenants && s.after.tenants.Keys == reg.tenants.Keys - {id}
              && (forall t | t in s.after.tenants :: s.after.tenants[t] == reg.tenants[t])
              && s.after.vms == reg.vms && s.after.flows == reg.flows && s.after.cookies == reg.cookies
  {
    match CheckRemoveTenant(reg, body)
    case Failure(e) => Step(Failure(e), reg)
    case Success(id) => Step(Success(Removed), reg.(tenants := reg.tenants - {id}))
  }
}
