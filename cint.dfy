/** C++ integer semantics that Dafny's unbounded, Euclidean `int` does not have
    built in: `/` and `%` truncate toward zero, and a `Uint32` stored into an
    `int` is reinterpreted modulo 2^32. */
module CInt {

  const UINT32_LIMIT: int := 0x1_0000_0000
  const INT32_LIMIT: int := 0x8000_0000

  function Abs(a: int): nat {
    if a < 0 then -a else a
  }

  /** C++ `a / b` on `int`: the quotient rounded toward zero. The remainder it
      leaves is smaller than the divisor in magnitude and has the sign of the
      dividend, which is how C++ defines the pair `/`, `%`. */
  function Div(a: int, b: int): (q: int)
    requires b != 0
    ensures Abs(a - b * q) < Abs(b)
    ensures a - b * q == 0 || (a - b * q < 0 <==> a < 0)
  {
    var q0 := Abs(a) / Abs(b);
    var m := Abs(a) % Abs(b);
    assert Abs(a) == Abs(b) * q0 + m;
    if (a < 0) == (b < 0) then
      assert b * q0 == (if b < 0 then -(Abs(b) * q0) else Abs(b) * q0);
      q0
    else
      assert b * -q0 == (if b < 0 then Abs(b) * q0 else -(Abs(b) * q0));
      -q0
  }

  /** C++ `a % b` on `int`: what is left after `Div`. On a non-negative
      dividend and a positive divisor it agrees with Dafny's `%`. */
  function Rem(a: int, b: int): (r: int)
    requires b != 0
    ensures Abs(r) < Abs(b)
    ensures r == 0 || (r < 0 <==> a < 0)
    ensures a == b * Div(a, b) + r
    ensures 0 <= a && 0 < b ==> r == a % b
  {
    var r := a - b * Div(a, b);
    if 0 <= a && 0 < b then
      EuclidUnique(a, b, Div(a, b), r);
      r
    else
      r
  }

  /** Quotient and remainder are unique once the remainder is in `[0, b)`. */
  lemma EuclidUnique(a: int, b: int, q: int, r: int)
    requires 0 < b && 0 <= r < b && a == b * q + r
    ensures r == a % b && q == a / b
  {
    var q', r' := a / b, a % b;
    assert a == b * q' + r';
    var d := q - q';
    assert b * q - b * q' == b * d;
    assert b * d == r' - r;
    if d > 0 {
      MulAtLeast(b, d);
    } else if d < 0 {
      MulAtLeast(b, -d);
    }
  }

  lemma MulAtLeast(b: int, d: int)
    requires 0 < b && 0 < d
    ensures b * d >= b
  {
  }

  /** Storing a `Uint32` into an `int` (as in `sprite.lastUpdate = current`):
      the value is read back modulo 2^32 into the signed 32-bit range. */
  function FromUint32(u: int): (r: int)
    requires 0 <= u < UINT32_LIMIT
    ensures -INT32_LIMIT <= r < INT32_LIMIT
    ensures (u - r) % UINT32_LIMIT == 0
    ensures u < INT32_LIMIT ==> r == u
  {
    if u < INT32_LIMIT then u else u - UINT32_LIMIT
  }
}
