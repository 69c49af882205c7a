/** The few JavaScript number operations the controllers and the client
    use on integers: `Math.max`, `Math.min` and the remainder operator `%`,
    which truncates toward zero and so takes the sign of the dividend. */
module JsNumber {

  function Max(a: int, b: int): (r: int)
    ensures r >= a && r >= b && (r == a || r == b)
  {
    if a >= b then a else b
  }

  function Min(a: int, b: int): (r: int)
    ensures r <= a && r <= b && (r == a || r == b)
  {
    if a <= b then a else b
  }

  /** `a % n` for a positive `n`: on a non-negative `a` it is Dafny's
      (Euclidean) remainder; the sign follows `a`. */
  function Rem(a: int, n: int): (r: int)
    requires n > 0
    ensures -n < r < n
    ensures a >= 0 ==> r == a % n
    ensures a <= 0 ==> r <= 0
  {
    if a >= 0 then a % n else -((-a) % n)
  }
}
