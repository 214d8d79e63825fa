/**
 * The shape stage of each handler: all required keys are read first, then
 * every field the handler checks before touching its maps is decoded. None
 * of this depends on the gateway's state.
 */
module Requests {
  import opened Results
  import opened Json
  import opened Errors
  import opened FieldDecoder

  const NewTenantKeys: seq<Key> := [NameKey]
  const NewVmKeys: seq<Key> := [NameKey, TenantIdKey, CookieKey]
  const NewFlowKeys: seq<Key> := [
    NameKey, TenantIdKey, CookieKey, SrcIpKey, DstIpKey, SrcPortKey, DstPortKey, ProtocolKey,
    SourceKey, DestinationKey, RateKey, BurstKey, LatencyKey]
  /** The newFlow fields whose kinds are checked before authorization. */
  const FlowShapeKeys: set<Key> := {NameKey, TenantIdKey, CookieKey, SrcIpKey, DstIpKey, SrcPortKey, DstPortKey, ProtocolKey}

  predicate HasKeys(body: Body, keys: seq<Key>) {
    body.Object? && forall k | k in keys :: k in body.fields
  }

  /** The errors a shape stage can end with: none of them needs the gateway's state. */
  predicate IsShapeError(e: Error, keys: set<Key>) {
    e.Malformed? || e.MissingKey? || e.BadName? || ((e.WrongType? || e.BadIp?) && e.key in keys)
  }

  datatype NewVmFields = NewVmFields(name: string, tenantId: int64, cookie: int32)

  /**
   * The newFlow fields decoded before authorization, and the raw values of
   * the five fields whose kinds are only checked after it.
   */
  datatype FlowHeader = FlowHeader(
    name: string, tenantId: int64, cookie: int32,
    srcIp: InetAddress, dstIp: InetAddress, srcPort: int32, dstPort: int32, protocol: int32,
    source: JVal, destination: JVal, rate: JVal, burst: JVal, latency: JVal)

  /** The id and cookie every removal carries. */
  datatype RemovalFields = RemovalFields(id: int64, cookie: int32)

  /** newTenant: a string name of 1 to 15 characters. */
  function DecodeNewTenant(body: Body): (r: Result<string, Error>)
    ensures r.Success? <==>
              HasKeys(body, NewTenantKeys) && body.fields[NameKey].JStr? && 1 <= |body.fields[NameKey].s| <= 15
    ensures r.Success? ==> r.value == body.fields[NameKey].s
    ensures body.Unparsable? ==> r == Failure(Malformed)
    ensures body.Object? && NameKey !in body.fields ==> r == Failure(MissingKey(NameKey))
    ensures HasKeys(body, NewTenantKeys) && !body.fields[NameKey].JStr? ==> r == Failure(WrongType(NameKey))
    ensures HasKeys(body, NewTenantKeys) && body.fields[NameKey] == JStr([]) ==> r == Failure(BadName(Empty))
    ensures HasKeys(body, NewTenantKeys) && body.fields[NameKey].JStr? && 15 < |body.fields[NameKey].s| ==>
              r == Failure(BadName(TooLong))
    ensures r.Failure? ==> IsShapeError(r.error, {NameKey})
  {
    var fields :- Parsed(body);
    var _ :- RequireKeys(fields, NewTenantKeys);
    var name :- AsString(NameKey, fields[NameKey]);
    TenantName(name)
  }

  /** newVM: a string name (of any length), an integral tenant id, an `Integer` cookie. */
  function DecodeNewVm(body: Body): (r: Result<NewVmFields, Error>)
    ensures r.Success? <==>
              && HasKeys(body, NewVmKeys)
              && body.fields[NameKey].JStr?
              && IntegralValue(body.fields[TenantIdKey]).Some?
              && body.fields[CookieKey].JInt?
    ensures r.Success? ==>
              && body.fields[NameKey] == JStr(r.value.name)
              && IntegralValue(body.fields[TenantIdKey]) == Some(r.value.tenantId as int)
              && body.fields[CookieKey] == JInt(r.value.cookie)
    ensures body.Unparsable? ==> r == Failure(Malformed)
    ensures body.Object? && !HasKeys(body, NewVmKeys) ==>
              r.Failure? && r.error.MissingKey? && IsFirstMissing(body.fields, NewVmKeys, r.error.key)
    ensures HasKeys(body, NewVmKeys) ==>
              var f := body.fields;
              && (!f[NameKey].JStr? ==> r == Failure(WrongType(NameKey)))
              && (f[NameKey].JStr? && IntegralValue(f[TenantIdKey]).None? ==> r == Failure(WrongType(TenantIdKey)))
              && (f[NameKey].JStr? && IntegralValue(f[TenantIdKey]).Some? && !f[CookieKey].JInt? ==>
                    r == Failure(WrongType(CookieKey)))
    ensures r.Failure? ==> IsShapeError(r.error, {NameKey, TenantIdKey, CookieKey})
  {
    var fields :- Parsed(body);
    var _ :- RequireKeys(fields, NewVmKeys);
    var name :- AsString(NameKey, fields[NameKey]);
    var tenantId :- AsLong(TenantIdKey, fields[TenantIdKey]);
    var cookie :- AsInt(CookieKey, fields[CookieKey]);
    Success(NewVmFields(name, tenantId, cookie))
  }

  /** What the shape stage of newFlow accepts, field by field, once all keys are present. */
  predicate FlowFieldsOk(fields: Fields, resolve: string -> Option<InetAddress>)
    requires forall k | k in NewFlowKeys :: k in fields
  {
    && fields[NameKey].JStr?
    && IntegralValue(fields[TenantIdKey]).Some?
    && fields[CookieKey].JInt?
    && fields[SrcIpKey].JStr? && resolve(fields[SrcIpKey].s).Some?
    && fields[DstIpKey].JStr? && resolve(fields[DstIpKey].s).Some?
    && fields[SrcPortKey].JInt?
    && fields[DstPortKey].JInt?
    && fields[ProtocolKey].JInt?
  }

  /**
   * The first of newFlow's eight early fields, in the order the handler
   * checks them, whose value it refuses, with the error it halts with;
   * `None` when all eight are acceptable.
   */
  function FirstFlowFieldError(fields: Fields, resolve: string -> Option<InetAddress>): (e: Option<Error>)
    requires forall k | k in NewFlowKeys :: k in fields
    ensures e.None? <==> FlowFieldsOk(fields, resolve)
    ensures e.Some? ==> IsShapeError(e.value, FlowShapeKeys)
  {
    if !fields[NameKey].JStr? then Some(WrongType(NameKey))
    else if IntegralValue(fields[TenantIdKey]).None? then Some(WrongType(TenantIdKey))
    else if !fields[CookieKey].JInt? then Some(WrongType(CookieKey))
    else if !fields[SrcIpKey].JStr? then Some(WrongType(SrcIpKey))
    else if resolve(fields[SrcIpKey].s).None? then Some(BadIp(SrcIpKey))
    else if !fields[DstIpKey].JStr? then Some(WrongType(DstIpKey))
    else if resolve(fields[DstIpKey].s).None? then Some(BadIp(DstIpKey))
    else if !fields[SrcPortKey].JInt? then Some(WrongType(SrcPortKey))
    else if !fields[DstPortKey].JInt? then Some(WrongType(DstPortKey))
    else if !fields[ProtocolKey].JInt? then Some(WrongType(ProtocolKey))
    else None
  }

  /** What the shape stage of newFlow accepts. */
  predicate FlowShapeOk(body: Body, resolve: string -> Option<InetAddress>) {
    HasKeys(body, NewFlowKeys) && FlowFieldsOk(body.fields, resolve)
  }

  /** The header fields read in order, once all thirteen keys are known to be present. */
  function DecodeFlowFields(fields: Fields, resolve: string -> Option<InetAddress>): (r: Result<FlowHeader, Error>)
    requires forall k | k in NewFlowKeys :: k in fields
    ensures r.Success? <==> FlowFieldsOk(fields, resolve)
    ensures r.Success? ==>
              && fields[NameKey] == JStr(r.value.name)
              && IntegralValue(fields[TenantIdKey]) == Some(r.value.tenantId as int)
              && fields[CookieKey] == JInt(r.value.cookie)
              && resolve(fields[SrcIpKey].s) == Some(r.value.srcIp)
              && resolve(fields[DstIpKey].s) == Some(r.value.dstIp)
              && fields[SrcPortKey] == JInt(r.value.srcPort)
              && fields[DstPortKey] == JInt(r.value.dstPort)
              && fields[ProtocolKey] == JInt(r.value.protocol)
    ensures r.Success? ==>
              && r.value.source == fields[SourceKey]
              && r.value.destination == fields[DestinationKey]
              && r.value.rate == fields[RateKey]
              && r.value.burst == fields[BurstKey]
              && r.value.latency == fields[LatencyKey]
    ensures r.Failure? <==> FirstFlowFieldError(fields, resolve).Some?
    ensures r.Failure? ==> r.error == FirstFlowFieldError(fields, resolve).value
    ensures r.Failure? ==> IsShapeError(r.error, FlowShapeKeys)
  {
    var name :- AsString(NameKey, fields[NameKey]);
    var tenantId :- AsLong(TenantIdKey, fields[TenantIdKey]);
    var cookie :- AsInt(CookieKey, fields[CookieKey]);
    var srcIp :- AsIp(SrcIpKey, fields[SrcIpKey], resolve);
    var dstIp :- AsIp(DstIpKey, fields[DstIpKey], resolve);
    var srcPort :- AsInt(SrcPortKey, fields[SrcPortKey]);
    var dstPort :- AsInt(DstPortKey, fields[DstPortKey]);
    var protocol :- AsInt(ProtocolKey, fields[ProtocolKey]);
    Success(FlowHeader(
      name, tenantId, cookie, srcIp, dstIp, srcPort, dstPort, protocol,
      fields[SourceKey], fields[DestinationKey], fields[RateKey], fields[BurstKey], fields[LatencyKey]))
  }

  /**
   * newFlow up to authorization: all thirteen keys, then name, tenantId,
   * cookie, srcIp, dstIp, srcPort, dstPort and protocol, in that order.
   */
  function DecodeFlowHeader(body: Body, resolve: string -> Option<InetAddress>): (r: Result<FlowHeader, Error>)
    ensures r.Success? <==> FlowShapeOk(body, resolve)
    ensures r.Success? ==> HasKeys(body, NewFlowKeys)
    ensures body.Unparsable? ==> r == Failure(Malformed)
    ensures HasKeys(body, NewFlowKeys) ==> r == DecodeFlowFields(body.fields, resolve)
    ensures body.Object? && !HasKeys(body, NewFlowKeys) ==>
              r.Failure? && r.error.MissingKey? && IsFirstMissing(body.fields, NewFlowKeys, r.error.key)
    ensures r.Failure? ==> IsShapeError(r.error, FlowShapeKeys)
  {
    var fields :- Parsed(body);
    var _ :- RequireKeys(fields, NewFlowKeys);
    DecodeFlowFields(fields, resolve)
  }

  /**
   * removeFlow, removeVM, removeTenant: an integral id under `idKey`, then an
   * `Integer` cookie.
   */
  function DecodeRemoval(body: Body, idKey: Key): (r: Result<RemovalFields, Error>)
    requires idKey != CookieKey
    ensures r.Success? <==>
              HasKeys(body, [idKey, CookieKey]) && IntegralValue(body.fields[idKey]).Some? && body.fields[CookieKey].JInt?
    ensures r.Success? ==>
              IntegralValue(body.fields[idKey]) == Some(r.value.id as int) && body.fields[CookieKey] == JInt(r.value.cookie)
    ensures body.Unparsable? ==> r == Failure(Malformed)
    ensures body.Object? && !HasKeys(body, [idKey, CookieKey]) ==>
              r.Failure? && r.error.MissingKey? && IsFirstMissing(body.fields, [idKey, CookieKey], r.error.key)
    ensures HasKeys(body, [idKey, CookieKey]) ==>
              var f := body.fields;
              && (IntegralValue(f[idKey]).None? ==> r == Failure(WrongType(idKey)))
              && (IntegralValue(f[idKey]).Some? && !f[CookieKey].JInt? ==> r == Failure(WrongType(CookieKey)))
    ensures r.Failure? ==> IsShapeError(r.error, {idKey, CookieKey})
  {
    var fields :- Parsed(body);
    var _ :- RequireKeys(fields, [idKey, CookieKey]);
    var id :- AsLong(idKey, fields[idKey]);
    var cookie :- AsInt(CookieKey, fields[CookieKey]);
    Success(RemovalFields(id, cookie))
  }

  /**
   * An instance of the removal tests' type checks: with a valid id, a
   * `Long` or `Double` cookie (such as `43.3`) is a cookie type error.
   */
  lemma NonIntegerCookieRejected(idKey: Key, id: JVal, cookie: JVal)
    requires idKey != CookieKey && IntegralValue(id).Some? && (cookie.JLong? || cookie.JDouble?)
    ensures DecodeRemoval(Object(map[idKey := id, CookieKey := cookie]), idKey) == Failure(WrongType(CookieKey))
  {
    var fields := map[idKey := id, CookieKey := cookie];
    assert RequireKeys(fields, [idKey, CookieKey]).Success?;
  }
}
