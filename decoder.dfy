/**
 * Field decoding: turning the untyped values of a request payload into
 * typed fields. Each decoder looks at one value and either yields the typed
 * field or the error the handler halts with; none of them touches state.
 */
module FieldDecoder {
  import opened Results
  import opened Json
  import opened Errors

  /**
   * An address as the resolver yields it. `Inet4Address.getByName` is the
   * inherited `InetAddress.getByName`, so a literal such as "::1" gives an
   * IPv6 address even though the field is meant to be IPv4.
   */
  datatype InetAddress = V4(address: bv32) | V6(address6: bv128)

  /**
   * The mathematical integer a boxed `Integer` or `Long` stands for; any
   * other kind of value has none. The reference for the widening decoders.
   */
  function IntegralValue(v: JVal): Option<int> {
    match v
    case JInt(i) => Some(i as int)
    case JLong(l) => Some(l as int)
    case _ => None
  }

  /** True when `k` is the first of `keys` that `fields` lacks. */
  ghost predicate IsFirstMissing(fields: Fields, keys: seq<Key>, k: Key) {
    exists i | 0 <= i < |keys| :: keys[i] == k && k !in fields && forall j | 0 <= j < i :: keys[j] in fields
  }

  /** The object behind a body; an unparsable body is the "not a valid JSON format" halt. */
  function Parsed(body: Body): (r: Result<Fields, Error>)
    ensures r.Success? <==> body.Object?
    ensures r.Success? ==> r.value == body.fields
    ensures r.Failure? ==> r.error == Malformed
  {
    match body
    case Unparsable => Failure(Malformed)
    case Object(fields) => Success(fields)
  }

  /**
   * Checks that `keys` are all present, in order, as the handlers' single
   * `try` block of `json.get` calls does: the first absent key ends the read.
   */
  function RequireKeys(fields: Fields, keys: seq<Key>): (r: Result<(), Error>)
    ensures r.Success? <==> forall k | k in keys :: k in fields
    ensures r.Failure? ==> r.error.MissingKey? && IsFirstMissing(fields, keys, r.error.key)
  {
    if keys == [] then Success(())
    else if keys[0] !in fields then Failure(MissingKey(keys[0]))
    else RequireKeys(fields, keys[1..])
  }

  /** A field that must be a `String`. */
  function AsString(key: Key, v: JVal): (r: Result<string, Error>)
    ensures r.Success? <==> v.JStr?
    ensures r.Success? ==> r.value == v.s
    ensures r.Failure? ==> r.error == WrongType(key)
  {
    if v.JStr? then Success(v.s) else Failure(WrongType(key))
  }

  /** An id field: an `Integer` or a `Long`, widened to `long` without change of value. */
  function AsLong(key: Key, v: JVal): (r: Result<int64, Error>)
    ensures r.Success? <==> IntegralValue(v).Some?
    ensures r.Success? ==> r.value as int == IntegralValue(v).value
    ensures r.Failure? ==> r.error == WrongType(key)
  {
    match v
    case JInt(i) => Success(i as int64)
    case JLong(l) => Success(l)
    case _ => Failure(WrongType(key))
  }

  /** A cookie, port or protocol field: only an `Integer` is accepted. */
  function AsInt(key: Key, v: JVal): (r: Result<int32, Error>)
    ensures r.Success? <==> v.JInt?
    ensures r.Success? ==> r.value == v.i
    ensures r.Failure? ==> r.error == WrongType(key)
  {
    if v.JInt? then Success(v.i) else Failure(WrongType(key))
  }

  /** The value is a `java.lang.Number`: an `Integer`, a `Long` or a `Double`. */
  predicate IsNumber(v: JVal) {
    v.JInt? || v.JLong? || v.JDouble?
  }

  /** The latency field: any `Number`, passed on as its `doubleValue()`. */
  function AsNumber(key: Key, v: JVal): (r: Result<real, Error>)
    ensures r.Success? <==> IsNumber(v)
    ensures r.Success? && IntegralValue(v).Some? ==> r.value == IntegralValue(v).value as real
    ensures r.Success? && v.JDouble? ==> r.value == v.d
    ensures r.Failure? ==> r.error == WrongType(key)
  {
    match v
    case JInt(i) => Success(i as real)
    case JLong(l) => Success(l as real)
    case JDouble(d) => Success(d)
    case _ => Failure(WrongType(key))
  }

  /** The tenant-name rule: a non-empty string of at most 15 characters. */
  function TenantName(name: string): (r: Result<string, Error>)
    ensures r.Success? <==> 1 <= |name| <= 15
    ensures r.Success? ==> r.value == name
    ensures name == [] ==> r == Failure(BadName(Empty))
    ensures 15 < |name| ==> r == Failure(BadName(TooLong))
  {
    if name == [] then Failure(BadName(Empty))
    else if |name| > 15 then Failure(BadName(TooLong))
    else Success(name)
  }

  /**
   * An IP field: a `String` that the resolver accepts. The resolver stands
   * for `Inet4Address.getByName` (literal parsing and host-name lookup),
   * which is not part of this model.
   */
  function AsIp(key: Key, v: JVal, resolve: string -> Option<InetAddress>): (r: Result<InetAddress, Error>)
    ensures r.Success? <==> v.JStr? && resolve(v.s).Some?
    ensures r.Success? ==> r.value == resolve(v.s).value
    ensures r.Failure? ==> r.error == if v.JStr? then BadIp(key) else WrongType(key)
  {
    if !v.JStr? then Failure(WrongType(key))
    else match resolve(v.s)
      case None => Failure(BadIp(key))
      case Some(a) => Success(a)
  }

  /**
   * The rate field as the flow handler decodes it: its own kind is checked,
   * but the unboxing cast is chosen by the kind of the burst value. When the
   * two kinds differ the cast throws; when burst is not integral at all the
   * rate is left at 0 (and the burst check fails next).
   */
  function RateByBurstKind(rate: JVal, burst: JVal): (r: Result<int64, Error>)
    ensures r.Success? <==> IntegralValue(rate).Some? && !(IntegralValue(burst).Some? && rate.JInt? != burst.JInt?)
    ensures IntegralValue(rate).None? ==> r == Failure(WrongType(RateKey))
    ensures r == Failure(ClassCast(RateKey)) <==>
              IntegralValue(rate).Some? && IntegralValue(burst).Some? && rate.JInt? != burst.JInt?
    ensures r.Success? ==> IntegralValue(rate).Some?
    ensures r.Success? && IntegralValue(burst).Some? ==> r.value as int == IntegralValue(rate).value
    ensures r.Success? && IntegralValue(burst).None? ==> r.value == 0
    ensures r.Failure? ==> r.error in {WrongType(RateKey), ClassCast(RateKey)}
  {
    if !rate.JInt? && !rate.JLong? then Failure(WrongType(RateKey))
    else match burst
      case JLong(_) => if rate.JLong? then Success(rate.l) else Failure(ClassCast(RateKey))
      case JInt(_) => if rate.JInt? then Success(rate.i as int64) else Failure(ClassCast(RateKey))
      case _ => Success(0)
  }

  /**
   * Once burst also decodes, the rate handed on is exactly what the rate
   * field says, as long as rate and burst are boxed alike.
   */
  lemma RateAgreesWithOwnDecoding(rate: JVal, burst: JVal)
    requires AsLong(BurstKey, burst).Success?
    ensures RateByBurstKind(rate, burst).Success? ==> RateByBurstKind(rate, burst) == AsLong(RateKey, rate)
    ensures rate.JInt? == burst.JInt? ==> RateByBurstKind(rate, burst) == AsLong(RateKey, rate)
  {
  }
}
