/** The three pieces of JavaScript semantics the core relies on: the `%` operator,
    which truncates toward zero (unlike Dafny's Euclidean `%`), `Math.abs` of a
    difference, and the decimal rendering of an integer inside a template
    literal (`${n}`). */
module Js {

  /** The quotient of `a / b` truncated toward zero (`Math.trunc(a / b)`). */
  function Quot(a: int, b: int): int
    requires b > 0
  {
    if a >= 0 then a / b else -((-a) / b)
  }

  /** JavaScript `a % b` for a positive divisor: what is left of `a` after taking
      out the truncated quotient, so the remainder takes the sign of `a`. */
  function Rem(a: int, b: int): (r: int)
    requires b > 0
    ensures a == Quot(a, b) * b + r
    ensures a >= 0 ==> 0 <= r < b
    ensures a < 0 ==> -b < r <= 0
  {
    if a >= 0 then a % b else -((-a) % b)
  }

  /** Distance between two integers, `Math.abs(a - b)`. */
  function Dist(a: int, b: int): (d: nat)
    ensures d == a - b || d == b - a
  {
    if a <= b then b - a else a - b
  }

  /** Taking the remainder before or after adding one gives the same remainder. */
  lemma ModSucc(x: nat, m: int)
    requires m > 0
    ensures (x % m + 1) % m == (x + 1) % m
  {
    var q, r := x / m, x % m;
    if r + 1 == m {
      ModUnique(x + 1, q + 1, 0, m);
    } else {
      ModUnique(x + 1, q, r + 1, m);
    }
    ModUnique(r + 1, if r + 1 == m then 1 else 0, if r + 1 == m then 0 else r + 1, m);
  }

  /** A remainder is fixed by any division of `y` into `q` parts of `m` and a rest below `m`. */
  lemma ModUnique(y: int, q: int, r: int, m: int)
    requires m > 0 && 0 <= r < m && y == q * m + r
    ensures y % m == r
  {
    var d := q - y / m;
    assert d * m == y % m - r;
    if d != 0 {
      MulAwayFromZero(d, m);
      assert false;
    }
  }

  /** A non-zero multiple of `m` is at least `m` away from zero. */
  lemma MulAwayFromZero(d: int, m: int)
    requires m > 0 && d != 0
    ensures d * m >= m || d * m <= -m
  {
    var e := if d < 0 then -d else d;
    assert e * m == (e - 1) * m + m;
    assert (e - 1) * m >= 0;
    assert d * m == e * m || d * m == -(e * m);
  }

  predicate IsDigit(c: char) {
    '0' <= c <= '9'
  }

  function DigitChar(d: int): (c: char)
    requires 0 <= d < 10
    ensures IsDigit(c) && c as int - '0' as int == d
  {
    ['0', '1', '2', '3', '4', '5', '6', '7', '8', '9'][d]
  }

  function DigitValue(c: char): (d: int)
    requires IsDigit(c)
    ensures 0 <= d < 10 && DigitChar(d) == c
  {
    c as int - '0' as int
  }

  /** Decimal digits of a natural number, as `String(n)` prints it below 10^21
      (from there on JavaScript switches to exponent notation, which no day or
      image number comes near): no sign, no leading zero. */
  function NatToString(n: nat): (s: string)
    ensures |s| >= 1
    ensures forall i :: 0 <= i < |s| ==> IsDigit(s[i])
    ensures s[0] == '0' ==> n == 0
    ensures n < 10 <==> |s| == 1
  {
    if n < 10 then [DigitChar(n)] else NatToString(n / 10) + [DigitChar(n % 10)]
  }

  /** Decimal rendering of any integer, with a leading '-' for negatives; the
      digits after the sign read back as the magnitude. */
  function IntToString(i: int): (s: string)
    ensures |s| >= 1
    ensures i < 0 <==> s[0] == '-'
    ensures i >= 0 ==> (forall k :: 0 <= k < |s| ==> IsDigit(s[k])) && ParseDigits(s) == i
    ensures i < 0 ==> (forall k :: 1 <= k < |s| ==> IsDigit(s[k])) && ParseDigits(s[1..]) == -i
  {
    if i < 0 then
      var digits := NatToString(-i);
      ParseNatToString(-i);
      assert ("-" + digits)[1..] == digits;
      "-" + digits
    else
      ParseNatToString(i);
      NatToString(i)
  }

  /** Reads a string of decimal digits back into the number it denotes. */
  function ParseDigits(s: string): (n: nat)
    requires forall i :: 0 <= i < |s| ==> IsDigit(s[i])
  {
    if s == [] then 0 else 10 * ParseDigits(s[..|s| - 1]) + DigitValue(s[|s| - 1])
  }

  /** Decimal rendering and parsing are inverse: no two numbers print alike. */
  lemma {:induction false} ParseNatToString(n: nat)
    ensures ParseDigits(NatToString(n)) == n
  {
    var s := NatToString(n);
    if n >= 10 {
      ParseNatToString(n / 10);
      assert s[..|s| - 1] == NatToString(n / 10);
    }
  }

  lemma NatToStringInjective(m: nat, n: nat)
    requires NatToString(m) == NatToString(n)
    ensures m == n
  {
    ParseNatToString(m);
    ParseNatToString(n);
  }
}
