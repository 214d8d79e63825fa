/**
 * The already-parsed request payload. The JSON text grammar itself is not
 * modelled: a request body is either not a JSON object at all, or a map
 * from keys to dynamically typed values, each tagged with the Java class
 * the JSON library boxed it in.
 */
module Json {

  /** Java `int`: a 32-bit two's-complement value. */
  newtype int32 = x: int | -0x8000_0000 <= x < 0x8000_0000

  /** Java `long`: a 64-bit two's-complement value. */
  newtype int64 = x: int | -0x8000_0000_0000_0000 <= x < 0x8000_0000_0000_0000

  /**
   * A JSON value as seen through `instanceof`: `String`, `Integer`, `Long`,
   * `Double` (abstracted as a real), `Boolean`, the JSON null object, a
   * nested object or an array. `JDouble` stands for every `Number` other
   * than `Integer` and `Long` (`Double`, `BigInteger`, `BigDecimal`): the
   * latency check accepts all of them, and the id, cookie, port and
   * protocol checks refuse all of them.
   */
  datatype JVal =
    | JStr(s: string)
    | JInt(i: int32)
    | JLong(l: int64)
    | JDouble(d: real)
    | JBool(b: bool)
    | JNull
    | JObj(members: map<string, JVal>)
    | JArray(items: seq<JVal>)

  /**
   * How the JSON parser boxes an integer literal that fits a `long`: as an
   * `Integer` when it fits an `int`, and as a `Long` otherwise.
   */
  function Boxed(n: int64): (v: JVal)
    ensures v.JInt? <==> -0x8000_0000 <= n < 0x8000_0000
    ensures v.JInt? ==> v.i as int == n as int
    ensures !v.JInt? ==> v == JLong(n)
  {
    if -0x8000_0000 <= n < 0x8000_0000 then JInt(n as int32) else JLong(n)
  }

  /**
   * The keys the gateway reads. A payload is represented by the values it
   * holds under these keys; no handler ever looks at any other key.
   */
  datatype Key =
    | NameKey | TenantIdKey | CookieKey | SrcIpKey | DstIpKey | SrcPortKey | DstPortKey
    | ProtocolKey | SourceKey | DestinationKey | RateKey | BurstKey | LatencyKey
    | FlowIdKey | VmIdKey

  type Fields = map<Key, JVal>

  /** A request body: `Unparsable` is the case where parsing gave no object. */
  datatype Body = Unparsable | Object(fields: Fields)
}
