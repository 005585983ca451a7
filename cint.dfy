/** C/C++ integer semantics the controller relies on: absolute value, division
    that truncates toward zero, the 32-bit `int` range and the exit codes of
    <cstdlib>. Dafny's own `/` is Euclidean, so the C operator is spelled out. */
module CInt {

  const INT32_MIN: int := -0x8000_0000
  const INT32_MAX: int := 0x7FFF_FFFF

  /** `EXIT_FAILURE` from <cstdlib>. */
  const EXIT_FAILURE: int := 1

  predicate InInt32(x: int) {
    INT32_MIN <= x <= INT32_MAX
  }

  function Abs(x: int): (r: int)
    ensures r >= 0
    ensures r == x || r == -x
  {
    if x < 0 then -x else x
  }

  /** C's `a / b`: the quotient of the magnitudes, negated when the operands
      have opposite signs (so it rounds toward zero). */
  function TruncDiv(a: int, b: int): (q: int)
    requires b != 0
    ensures Abs(b) * Abs(q) <= Abs(a) < Abs(b) * (Abs(q) + 1)
    ensures q != 0 ==> ((q < 0) <==> ((a < 0) != (b < 0)))
  {
    var m := Abs(a) / Abs(b);
    QuotientBounds(Abs(a), Abs(b));
    if (a < 0) == (b < 0) then m else -m
  }

  /** The value an out-of-range integer takes when it is stored in a 32-bit
      `int` (two's complement wrap-around). */
  function WrapInt32(x: int): (r: int)
    ensures InInt32(r)
    ensures (r - x) % 0x1_0000_0000 == 0
    ensures InInt32(x) ==> r == x
  {
    (x - INT32_MIN) % 0x1_0000_0000 + INT32_MIN
  }

  /** For a non-negative dividend and a positive divisor, C's division is
      Dafny's. */
  lemma TruncDivOfNatural(a: int, b: int)
    requires a >= 0 && b > 0
    ensures TruncDiv(a, b) == a / b
  {
  }

  /** Dividing by 60, by 60 and by 1000 in turn, each rounding toward zero,
      gives the same whole hours as one division by 3,600,000. */
  lemma {:induction false} HoursByStages(ms: int)
    ensures TruncDiv(TruncDiv(TruncDiv(ms, 60), 60), 1000) == TruncDiv(ms, 3_600_000)
  {
    var m := Abs(ms);
    NestedDiv(m, 60, 60);
    NestedDiv(m, 3600, 1000);
    assert (m / 60) / 60 == m / 3600;
    assert ((m / 60) / 60) / 1000 == m / 3_600_000;
    if ms < 0 {
      assert TruncDiv(ms, 60) == -(m / 60);
      assert TruncDiv(TruncDiv(ms, 60), 60) == -((m / 60) / 60);
    }
  }

  /** (a / b) / c == a / (b * c) for natural a and positive b, c. */
  lemma {:induction false} NestedDiv(a: int, b: int, c: int)
    requires a >= 0 && b > 0 && c > 0
    ensures (a / b) / c == a / (b * c)
  {
    var q := a / b;
    var r := a % b;
    var q2 := q / c;
    var r2 := q % c;
    assert a == b * q + r && 0 <= r < b;
    assert q == c * q2 + r2 && 0 <= r2 < c;
    assert a == (b * c) * q2 + (b * r2 + r) by {
      MulAdd(b, c * q2, r2);
      MulAssoc(b, c, q2);
    }
    assert 0 <= b * r2 + r < b * c by {
      MulLe(b, r2, c - 1);
      MulAdd(b, c - 1, 1);
      MulLe(b, 0, r2);
    }
    DivUnique(a, b * c, q2, b * r2 + r);
  }

  /** The Euclidean quotient is the only q with a == d*q + r and 0 <= r < d. */
  lemma DivUnique(a: int, d: int, q: int, r: int)
    requires d > 0 && a == d * q + r && 0 <= r < d
    ensures a / d == q
  {
    var q', r' := a / d, a % d;
    assert a == d * q' + r' && 0 <= r' < d;
    assert d * (q - q') == r' - r by {
      assert d * (q - q') == d * q - d * q';
    }
    if q > q' {
      MulAtLeast(d, q - q');
    } else if q < q' {
      MulAtLeast(d, q' - q);
    }
  }

  /** The Euclidean quotient of naturals brackets the dividend. */
  lemma QuotientBounds(n: int, d: int)
    requires n >= 0 && d > 0
    ensures d * (n / d) <= n < d * (n / d + 1)
  {
    var m := n / d;
    assert n == d * m + n % d;
    assert d * (m + 1) == d * m + d;
  }

  lemma MulAtLeast(d: int, k: int)
    requires d > 0 && k >= 1
    ensures d * k >= d
  {
    assert d * k == d * (k - 1) + d;
    assert d * (k - 1) >= 0;
  }

  lemma MulAdd(a: int, b: int, c: int)
    ensures a * (b + c) == a * b + a * c
  {
  }

  lemma MulAssoc(a: int, b: int, c: int)
    ensures a * (b * c) == (a * b) * c
  {
  }

  lemma MulLe(k: int, x: int, y: int)
    requires k >= 0 && x <= y
    ensures k * x <= k * y
  {
  }
}
