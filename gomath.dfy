/** Go integer arithmetic that differs from Dafny's. */
module GoMath {

  function Abs(x: int): (r: nat)
    ensures r == x || r == -x
  {
    if x < 0 then -x else x
  }

  function Min(a: int, b: int): (r: int)
    ensures r <= a && r <= b
    ensures r == a || r == b
  {
    if a < b then a else b
  }

  /**
   * Go's `%`: division truncates toward zero, so a non-zero remainder
   * takes the sign of the dividend (Dafny's `%` never goes negative).
   */
  function Rem(a: int, b: int): (r: int)
    requires b != 0
    ensures a >= 0 ==> 0 <= r < Abs(b)
    ensures a < 0 ==> 0 - Abs(b) < r <= 0
    ensures (a - r) % Abs(b) == 0
  {
    var m := Abs(b);
    RemCongruent(if a >= 0 then a else -a, m);
    if a >= 0 then a % m else -((-a) % m)
  }

  /** n and -n differ from their remainder (and its negation) by a multiple of m. */
  lemma RemCongruent(n: int, m: int)
    requires n >= 0 && m > 0
    ensures (n - n % m) % m == 0
    ensures (-n + n % m) % m == 0
  {
    var q := n / m;
    assert n - n % m == m * q;
    MultipleRem(m, q);
    MultipleRem(m, -q);
  }

  /** A multiple of m leaves no remainder. */
  lemma MultipleRem(m: int, q: int)
    requires m > 0
    ensures (m * q) % m == 0
  {
    var k := q - (m * q) / m;
    assert m * k == (m * q) % m;
  }

  /** Go's conversion int8(x): keep the low eight bits, read as two's complement. */
  function Int8(x: int): (r: int)
    ensures -0x80 <= r < 0x80
    ensures (x - r) % 0x100 == 0
    ensures -0x80 <= x < 0x80 ==> r == x
  {
    var m := x % 0x100;
    if m < 0x80 then m else m - 0x100
  }

  /** Go's conversion int32(x), and the wrap-around of int32 arithmetic. */
  function Int32(x: int): (r: int)
    ensures -0x8000_0000 <= r < 0x8000_0000
    ensures (x - r) % 0x1_0000_0000 == 0
    ensures -0x8000_0000 <= x < 0x8000_0000 ==> r == x
  {
    var m := x % 0x1_0000_0000;
    if m < 0x8000_0000 then m else m - 0x1_0000_0000
  }
}
