/** Java's fixed-width integer arithmetic, written out over Dafny's unbounded `int`. */
module JavaInt {

  const TwoTo31: int := 0x8000_0000
  const TwoTo32: int := 0x1_0000_0000

  /** A value of Java's 32-bit `int`. */
  predicate IsInt32(x: int) {
    -TwoTo31 <= x < TwoTo31
  }

  /** Java's `int`. */
  type Int32 = x: int | IsInt32(x)

  /** The Java `int` that two's-complement arithmetic leaves for the exact value `x`. */
  function Wrap32(x: int): (r: int)
    ensures IsInt32(r)
    ensures (x - r) % TwoTo32 == 0
    ensures IsInt32(x) ==> r == x
  {
    var m := (x + TwoTo31) % TwoTo32;
    m - TwoTo31
  }

  /** Java's `/` on `int`: the quotient is truncated toward zero. */
  function Quot(a: int, b: int): int
    requires b > 0
  {
    if a >= 0 then a / b else -((-a) / b)
  }

  /**
   * Java's `%`: the remainder takes the sign of the dividend, and `(a / b) * b + a % b == a`
   * holds with Java's truncating `/`. With the range clauses this fixes `r` for both signs.
   */
  function Rem(a: int, b: int): (r: int)
    requires b > 0
    ensures Quot(a, b) * b + r == a
    ensures (a - r) % b == 0
    ensures a >= 0 ==> 0 <= r < b
    ensures a < 0 ==> -b < r <= 0
    ensures a >= 0 ==> r == a % b
  {
    if a >= 0 then
      MultipleRem(a / b, b);
      a % b
    else
      MultipleRem(-((-a) / b), b);
      -((-a) % b)
  }

  /** A multiple of `b` leaves remainder 0. */
  lemma MultipleRem(k: int, b: int)
    requires b > 0
    ensures (k * b) % b == 0
  {
    var x := k * b;
    var q, r := x / b, x % b;
    assert x == q * b + r && 0 <= r < b;
    var d := k - q;
    assert r == d * b;
  }
}
