/** The per-tenant possession secret and the way a fresh one is drawn. */
module Cookies {
  import opened Json

  const MinInt32: int32 := -0x8000_0000

  /**
   * An immutable 32-bit secret. The constructor takes any `int`, negative
   * ones included; the only accessor returns it unchanged.
   */
  datatype Cookie = Cookie(value: int32) {
    function GetCookie(): (c: int32)
      ensures this == Cookie(c)
    {
      value
    }
  }

  /** Reduction of a mathematical integer to Java's 32-bit wrap-around. */
  function Wrap32(n: int): (r: int32)
    ensures (r as int - n) % 0x1_0000_0000 == 0
  {
    ((n + 0x8000_0000) % 0x1_0000_0000 - 0x8000_0000) as int32
  }

  /** Java's `Math.abs(int)`: the negation wraps, so the minimum maps to itself. */
  function Abs(x: int32): (r: int32)
    ensures x != MinInt32 ==> 0 <= r && (r == x || r as int == -(x as int))
    ensures x == MinInt32 ==> r == MinInt32
  {
    if x < 0 then Wrap32(-(x as int)) else x
  }

  /** The cookie handed to a new tenant, drawn from the random `int` r. */
  function Issue(r: int32): (c: Cookie)
    ensures r != MinInt32 ==> 0 <= c.GetCookie()
    ensures r == MinInt32 ==> c.GetCookie() < 0
    ensures c.GetCookie() as int == r as int || c.GetCookie() as int == -(r as int)
  {
    Cookie(Abs(r))
  }
}
