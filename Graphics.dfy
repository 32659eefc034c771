/** The platform graphics values the views exchange with the framework. */
module Graphics {

  /** A drawable's bounds, as android.graphics.Rect holds them. */
  datatype Rect = Rect(left: int, top: int, right: int, bottom: int)

  /** Java's `n / 2` on an int: the quotient is truncated toward zero. */
  function JavaHalf(n: int): (q: int)
    ensures 2 * q == n || 2 * q == n - 1 || 2 * q == n + 1
    ensures n >= 0 ==> 0 <= q && 2 * q <= n
    ensures n < 0 ==> q <= 0 && n <= 2 * q
  {
    if n >= 0 then n / 2 else -((-n) / 2)
  }
}
