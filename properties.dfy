/**
 * Properties that relate several handler calls, or one handler call over
 * all payloads: removals cannot be repeated, what is created can be removed
 * with the cookie it was created under, flows never cross tenants, newFlow's
 * checks run in a fixed order, and removing a tenant cascades nowhere.
 */
module HandlerProperties {
  import opened Results
  import opened Json
  import opened Errors
  import opened Cookies
  import opened FieldDecoder
  import opened Requests
  import opened Handlers

  /** The payload of newTenant. */
  function TenantBody(name: string): Body {
    Object(map[NameKey := JStr(name)])
  }

  /** The payload of newVM, the tenant id boxed as the parser boxes it. */
  function VmBody(name: string, tenantId: int64, cookie: int32): Body {
    Object(map[NameKey := JStr(name), TenantIdKey := Boxed(tenantId), CookieKey := JInt(cookie)])
  }

  /** The payload of a removal: the id under `idKey`, boxed as the parser boxes it, and the cookie. */
  function RemovalBody(idKey: Key, id: int64, cookie: int32): Body {
    Object(map[idKey := Boxed(id), CookieKey := JInt(cookie)])
  }

  /** An id sent back as a bare number decodes to itself, whichever box the parser picks. */
  lemma BoxedIdDecodes(key: Key, id: int64)
    ensures AsLong(key, Boxed(id)) == Success(id)
  {
    if Boxed(id).JInt? {
      assert Boxed(id).i as int64 == id;
    }
  }

  lemma RemovalBodyDecodes(idKey: Key, id: int64, cookie: int32)
    requires idKey != CookieKey
    ensures DecodeRemoval(RemovalBody(idKey, id, cookie), idKey) == Success(RemovalFields(id, cookie))
  {
    assert HasKeys(RemovalBody(idKey, id, cookie), [idKey, CookieKey]);
    BoxedIdDecodes(idKey, id);
  }

  // ------------------------------------------------------- removals are final

  /** A flow removed once is gone: the same request again answers InvalidId. */
  lemma RemoveFlowTwice(reg: Registry, body: Body)
    requires reg.Valid() && RemoveFlowSpec(reg, body).result.Success?
    ensures RemoveFlowSpec(RemoveFlowSpec(reg, body).after, body).result == Failure(InvalidId(FlowKind))
  {
  }

  lemma RemoveVmTwice(reg: Registry, body: Body)
    requires reg.Valid() && RemoveVmSpec(reg, body).result.Success?
    ensures RemoveVmSpec(RemoveVmSpec(reg, body).after, body).result == Failure(InvalidId(VmKind))
  {
  }

  lemma RemoveTenantTwice(reg: Registry, body: Body)
    requires reg.Valid() && RemoveTenantSpec(reg, body).result.Success?
    ensures RemoveTenantSpec(RemoveTenantSpec(reg, body).after, body).result == Failure(InvalidId(TenantKind))
  {
  }

  // ----------------------------------------------------------- round trips

  /** A tenant's own cookie removes it, and only it. */
  lemma OwnerRemovesTenant(reg: Registry, id: int64, cookie: int32)
    requires reg.Valid() && reg.Authorizes(id, cookie)
    ensures var removed := RemoveTenantSpec(reg, RemovalBody(TenantIdKey, id, cookie));
            removed.result == Success(Removed) && removed.after.tenants.Keys == reg.tenants.Keys - {id}
  {
    RemovalBodyDecodes(TenantIdKey, id, cookie);
  }

  /**
   * A tenant created with a valid name can be removed with the id and cookie
   * the creation answered; the removal takes the tenant out again.
   */
  lemma TenantRoundTrip(reg: Registry, name: string, id: int64, random: int32)
    requires reg.Valid() && 1 <= |name| <= 15
    ensures var created := NewTenantSpec(reg, TenantBody(name), Granted(id), random);
            && created.result == Success(TenantCreated(id, Abs(random)))
            && var removed := RemoveTenantSpec(created.after, RemovalBody(TenantIdKey, id, Abs(random)));
               && removed.result == Success(Removed)
               && removed.after.tenants.Keys == reg.tenants.Keys - {id}
  {
    assert HasKeys(TenantBody(name), NewTenantKeys);
    var created := NewTenantSpec(reg, TenantBody(name), Granted(id), random);
    OwnerRemovesTenant(created.after, id, Abs(random));
  }

  /**
   * An empty or over-long tenant name is refused before the tenant manager
   * is asked, whatever it would have answered, and nothing changes.
   */
  lemma BadTenantNameRejected(reg: Registry, name: string, backend: Backend<int64>, random: int32)
    requires reg.Valid() && (|name| == 0 || 15 < |name|)
    ensures NewTenantSpec(reg, TenantBody(name), backend, random) ==
              Step(Failure(BadName(if |name| == 0 then Empty else TooLong)), reg)
  {
    assert HasKeys(TenantBody(name), NewTenantKeys);
  }

  /** The cookie of a VM's tenant removes that VM, and only that VM. */
  lemma OwnerRemovesVm(reg: Registry, id: int64, cookie: int32)
    requires reg.Valid() && id in reg.vms && reg.CookieMatches(reg.vms[id].tenantId, cookie)
    ensures var removed := RemoveVmSpec(reg, RemovalBody(VmIdKey, id, cookie));
            removed.result == Success(Removed) && removed.after.vms.Keys == reg.vms.Keys - {id}
  {
    RemovalBodyDecodes(VmIdKey, id, cookie);
  }

  /**
   * Any name at all, the empty one included, is accepted for a VM of an
   * authorized caller, and the VM can be removed with the same cookie.
   */
  lemma VmRoundTrip(reg: Registry, name: string, tenantId: int64, cookie: int32, grant: VmGrant)
    requires reg.Valid() && reg.Authorizes(tenantId, cookie)
    ensures var created := NewVmSpec(reg, VmBody(name, tenantId, cookie), Granted(grant));
            && created.result.Success?
            && created.after.vms[grant.id] == Vm(grant.id, name, tenantId, grant.management)
            && var removed := RemoveVmSpec(created.after, RemovalBody(VmIdKey, grant.id, cookie));
               && removed.result == Success(Removed)
               && removed.after.vms.Keys == reg.vms.Keys - {grant.id}
  {
    assert HasKeys(VmBody(name, tenantId, cookie), NewVmKeys);
    BoxedIdDecodes(TenantIdKey, tenantId);
    assert DecodeNewVm(VmBody(name, tenantId, cookie)) == Success(NewVmFields(name, tenantId, cookie));
    var created := NewVmSpec(reg, VmBody(name, tenantId, cookie), Granted(grant));
    OwnerRemovesVm(created.after, grant.id, cookie);
  }

  /** The cookie of a flow's owner removes that flow, and only that flow. */
  lemma OwnerRemovesFlow(reg: Registry, id: int64, cookie: int32)
    requires reg.Valid() && id in reg.flows && reg.CookieMatches(reg.FlowOwner(id), cookie)
    ensures var removed := RemoveFlowSpec(reg, RemovalBody(FlowIdKey, id, cookie));
            removed.result == Success(Removed) && removed.after.flows.Keys == reg.flows.Keys - {id}
  {
    RemovalBodyDecodes(FlowIdKey, id, cookie);
  }

  /** A created flow can be removed with the cookie it was created under. */
  lemma FlowRoundTrip(reg: Registry, header: Result<FlowHeader, Error>, id: int64)
    requires reg.Valid() && NewFlowSpec(reg, header, Granted(id)).result.Success?
    ensures header.Success?
    ensures var removed := RemoveFlowSpec(NewFlowSpec(reg, header, Granted(id)).after, RemovalBody(FlowIdKey, id, header.value.cookie));
            && removed.result == Success(Removed)
            && removed.after.flows.Keys == reg.flows.Keys - {id}
  {
    var after := NewFlowSpec(reg, header, Granted(id)).after;
    assert after.flows[id].params == CheckNewFlow(reg, header).value;
    OwnerRemovesFlow(after, id, header.value.cookie);
  }

  // ------------------------------------------------------ flows stay in tenant

  /**
   * Once the caller is authorized, endpoints that are VMs of two different
   * tenants end in an InvalidId naming the endpoint that is not the caller's.
   */
  lemma EndpointsOfTwoTenantsRejected(reg: Registry, h: FlowHeader, src: int64, dst: int64)
    requires reg.Valid() && reg.Authorizes(h.tenantId, h.cookie)
    requires src in reg.vms && dst in reg.vms && reg.vms[src].tenantId != reg.vms[dst].tenantId
    requires IntegralValue(h.source) == Some(src as int) && IntegralValue(h.destination) == Some(dst as int)
    ensures CheckFlowEndpoints(reg, h) in {Failure(InvalidId(SourceVm)), Failure(InvalidId(DestinationVm))}
  {
    assert AsLong(SourceKey, h.source) == Success(src);
    assert AsLong(DestinationKey, h.destination) == Success(dst);
  }

  /**
   * A flow request whose source and destination are VMs of two different
   * tenants is refused, whoever asks; an authorized caller is told which
   * endpoint is not theirs.
   */
  lemma CrossTenantFlowRejected(reg: Registry, body: Body, resolve: string -> Option<InetAddress>, src: int64, dst: int64)
    requires reg.Valid() && src in reg.vms && dst in reg.vms
    requires reg.vms[src].tenantId != reg.vms[dst].tenantId
    requires body.Object? && SourceKey in body.fields && DestinationKey in body.fields
    requires IntegralValue(body.fields[SourceKey]) == Some(src as int)
    requires IntegralValue(body.fields[DestinationKey]) == Some(dst as int)
    ensures var header := DecodeFlowHeader(body, resolve);
            && CheckNewFlow(reg, header).Failure?
            && (header.Success? && reg.Authorizes(header.value.tenantId, header.value.cookie) ==>
                  CheckNewFlow(reg, header) in {Failure(InvalidId(SourceVm)), Failure(InvalidId(DestinationVm))})
  {
    var header := DecodeFlowHeader(body, resolve);
    if header.Success? && reg.Authorizes(header.value.tenantId, header.value.cookie) {
      EndpointsOfTwoTenantsRejected(reg, header.value, src, dst);
    }
  }

  /**
   * Past the shape stage: an authorized caller whose endpoints are VMs of
   * its tenant, with rate and burst boxed alike and a numeric latency, gets
   * the flow the backend grants.
   */
  lemma AuthorizedSameTenantFlowCreated(reg: Registry, h: FlowHeader, id: int64)
    requires reg.Valid() && reg.Authorizes(h.tenantId, h.cookie)
    requires reg.NamesVmOf(h.source, h.tenantId) && reg.NamesVmOf(h.destination, h.tenantId)
    requires IntegralValue(h.rate).Some? && IntegralValue(h.burst).Some? && h.rate.JInt? == h.burst.JInt?
    requires IsNumber(h.latency)
    ensures var created := NewFlowSpec(reg, Success(h), Granted(id));
            && created.result == Success(FlowCreated(id))
            && id in created.after.flows
            && created.after.flows[id].params.source.tenantId == h.tenantId
            && created.after.flows[id].params.destination.tenantId == h.tenantId
  {
  }

  /**
   * The converse: a well-formed request from an authorized caller whose
   * source and destination are both VMs of the caller's tenant, whose rate
   * and burst are integers boxed alike and whose latency is a number,
   * creates the flow the backend grants.
   */
  lemma SameTenantFlowAccepted(
    reg: Registry, body: Body, resolve: string -> Option<InetAddress>, tenantId: int64, cookie: int32, id: int64)
    requires reg.Valid() && FlowShapeOk(body, resolve) && reg.Authorizes(tenantId, cookie)
    requires IntegralValue(body.fields[TenantIdKey]) == Some(tenantId as int) && body.fields[CookieKey] == JInt(cookie)
    requires reg.NamesVmOf(body.fields[SourceKey], tenantId) && reg.NamesVmOf(body.fields[DestinationKey], tenantId)
    requires IntegralValue(body.fields[RateKey]).Some? && IntegralValue(body.fields[BurstKey]).Some?
    requires body.fields[RateKey].JInt? == body.fields[BurstKey].JInt? && IsNumber(body.fields[LatencyKey])
    ensures var created := NewFlowSpec(reg, DecodeFlowHeader(body, resolve), Granted(id));
            && created.result == Success(FlowCreated(id))
            && id in created.after.flows
            && created.after.flows[id].params.source.tenantId == tenantId
            && created.after.flows[id].params.destination.tenantId == tenantId
  {
    var header := DecodeFlowHeader(body, resolve);
    assert header.Success? && header.value.tenantId == tenantId && header.value.cookie == cookie;
    AuthorizedSameTenantFlowCreated(reg, header.value, id);
  }

  // --------------------------------------------------------- newFlow's order

  /** The stage of newFlow an error can come from. */
  datatype FlowStage = ShapeStage | AuthorizationStage | LateStage | BackendStage

  /** Reads the stage off an error alone. */
  function StageOf(e: Error): FlowStage {
    match e
    case InvalidId(kind) => if kind == TenantKind then AuthorizationStage else LateStage
    case InvalidCookie => AuthorizationStage
    case ClassCast(_) => LateStage
    case WrongType(key) => if key in FlowShapeKeys then ShapeStage else LateStage
    case BackendRejected(_) => BackendStage
    case _ => ShapeStage
  }

  /**
   * Every error of newFlow before the backend call tells the stage it came
   * from: the shape stage exactly when the payload's shape is wrong, the
   * authorization stage exactly when the shape is right and the caller is
   * not authorized, the late stage exactly when the caller is authorized. So
   * an unauthorized caller never learns whether its source, destination,
   * rate, burst or latency were acceptable.
   */
  lemma NewFlowChecksInOrder(reg: Registry, body: Body, resolve: string -> Option<InetAddress>)
    requires reg.Valid() && CheckNewFlow(reg, DecodeFlowHeader(body, resolve)).Failure?
    ensures var header := DecodeFlowHeader(body, resolve);
            StageOf(CheckNewFlow(reg, header).error) ==
              if header.Failure? then ShapeStage
              else if !reg.Authorizes(header.value.tenantId, header.value.cookie) then AuthorizationStage
              else LateStage
  {
    StagesInOrder(reg, DecodeFlowHeader(body, resolve));
  }

  /** The same, for any outcome of the shape stage that only fails with shape errors. */
  lemma StagesInOrder(reg: Registry, header: Result<FlowHeader, Error>)
    requires reg.Valid() && CheckNewFlow(reg, header).Failure?
    requires header.Failure? ==> IsShapeError(header.error, FlowShapeKeys)
    ensures StageOf(CheckNewFlow(reg, header).error) ==
              if header.Failure? then ShapeStage
              else if !reg.Authorizes(header.value.tenantId, header.value.cookie) then AuthorizationStage
              else LateStage
  {
    if header.Failure? {
      ShapeErrorsAreEarly(header.error);
    } else if reg.Authorizes(header.value.tenantId, header.value.cookie) {
      LateErrorsAreLate(reg, header.value);
    }
  }

  lemma ShapeErrorsAreEarly(e: Error)
    requires IsShapeError(e, FlowShapeKeys)
    ensures StageOf(e) == ShapeStage
  {
  }

  lemma LateErrorsAreLate(reg: Registry, h: FlowHeader)
    requires reg.Valid() && reg.Authorizes(h.tenantId, h.cookie) && CheckFlowEndpoints(reg, h).Failure?
    ensures StageOf(CheckFlowEndpoints(reg, h).error) == LateStage
  {
  }

  /** Shape errors of newFlow do not depend on the gateway's state. */
  lemma FlowShapeErrorIgnoresState(reg1: Registry, reg2: Registry, body: Body, resolve: string -> Option<InetAddress>)
    requires reg1.Valid() && reg2.Valid() && DecodeFlowHeader(body, resolve).Failure?
    ensures CheckNewFlow(reg1, DecodeFlowHeader(body, resolve)) == CheckNewFlow(reg2, DecodeFlowHeader(body, resolve))
    ensures IsShapeError(CheckNewFlow(reg1, DecodeFlowHeader(body, resolve)).error, FlowShapeKeys)
  {
  }

  // ------------------------------------------------------------- no cascade

  /**
   * Removing a tenant leaves its VMs in place, and its cookie still removes
   * them afterwards.
   */
  lemma TenantRemovalDoesNotCascade(reg: Registry, body: Body, vmId: int64)
    requires reg.Valid() && RemoveTenantSpec(reg, body).result.Success?
    requires vmId in reg.vms && reg.vms[vmId].tenantId == CheckRemoveTenant(reg, body).value
    ensures var after := RemoveTenantSpec(reg, body).after;
            var cookie := DecodeRemoval(body, TenantIdKey).value.cookie;
            && vmId in after.vms
            && RemoveVmSpec(after, RemovalBody(VmIdKey, vmId, cookie)).result == Success(Removed)
  {
    OwnerRemovesVm(RemoveTenantSpec(reg, body).after, vmId, DecodeRemoval(body, TenantIdKey).value.cookie);
  }
}
