/** Go's `time.Time` and integer division, as far as the sliding windows use them.

    An instant is the integer `UnixNano()`: nanoseconds since 1970.  Two rules of Go matter:
    integer division truncates toward zero, and `Truncate` counts multiples of its argument from
    Go's own zero time (1 January of year 1), not from 1970. */
module GoTime {
  type Time = int

  const SECOND: int := 1_000_000_000

  /** Go's zero `time.Time`, in nanoseconds relative to the Unix epoch. */
  const ZERO_TIME: Time := -62_135_596_800 * SECOND

  /** Go's `/` for a positive divisor. */
  function TruncDiv(a: int, b: int): int
    requires b > 0
  {
    if a >= 0 then a / b else -((-a) / b)
  }

  /** Go's `%` for a positive divisor: it has the sign of the dividend. */
  function TruncMod(a: int, b: int): int
    requires b > 0
  {
    a - TruncDiv(a, b) * b
  }

  /** `t.Truncate(d)` for a positive d. */
  function Truncate(t: Time, d: int): Time
    requires d > 0
  {
    t - (t - ZERO_TIME) % d
  }

  /** Multiples of `d` counted from Go's zero time are also multiples counted from 1970. */
  predicate Aligned(d: int)
    requires d > 0
  {
    ZERO_TIME % d == 0
  }

  lemma DivModUnique(a: int, d: int, q: int, r: int)
    requires d > 0 && 0 <= r < d && a == q * d + r
    ensures a / d == q && a % d == r
  {
    var k := a / d - q;
    assert k * d == r - a % d;
    assert -d < k * d < d;
  }

  /** What truncation toward zero means: the remainder is shorter than the divisor and never points
      the other way than the dividend. */
  lemma TruncModRange(a: int, n: int)
    requires n > 0
    ensures -n < TruncMod(a, n) < n
    ensures a >= 0 ==> TruncMod(a, n) == a % n
    ensures a <= 0 ==> TruncMod(a, n) <= 0
  {
    var m := if a >= 0 then a else -a;
    assert m == (m / n) * n + m % n;
    assert -((m / n)) * n == -((m / n) * n);
  }

  lemma TruncateForm(t: Time, d: int)
    requires d > 0
    ensures Truncate(t, d) == ZERO_TIME + ((t - ZERO_TIME) / d) * d
  {
    var a := t - ZERO_TIME;
    assert a == (a / d) * d + a % d;
  }

  /** Truncation is monotone, and distinct results are at least one step apart. */
  lemma TruncateOrder(a: Time, b: Time, d: int)
    requires d > 0
    ensures a <= b ==> Truncate(a, d) <= Truncate(b, d)
    ensures Truncate(a, d) < Truncate(b, d) ==> Truncate(a, d) + d <= Truncate(b, d)
  {
    TruncateForm(a, d);
    TruncateForm(b, d);
    var p, q := (a - ZERO_TIME) / d, (b - ZERO_TIME) / d;
    if p < q {
      assert (p + 1) * d <= q * d;
    } else if q < p {
      assert (q + 1) * d <= p * d;
    }
  }

  lemma TruncateAligned(t: Time, d: int)
    requires d > 0 && Aligned(d)
    ensures Truncate(t, d) == (t / d) * d
  {
    var z := ZERO_TIME / d;
    assert ZERO_TIME == z * d;
    assert t - ZERO_TIME == (t / d - z) * d + t % d;
    DivModUnique(t - ZERO_TIME, d, t / d - z, t % d);
  }

  /** Numbers with the same residue are at least one modulus apart. */
  lemma SameResidueGap(a: int, b: int, n: int)
    requires n > 0 && a % n == b % n && a < b
    ensures a + n <= b
  {
    var k := b / n - a / n;
    assert k * n == b - a;
    assert k * n > 0;
    assert k >= 1;
  }

  /** Cutting a length into n parts of whole nanoseconds. */
  lemma PartsOf(total: int, n: int)
    requires 1 <= n <= total
    ensures total / n >= 1 && (total / n) * n <= total
    ensures total % n == 0 ==> (total / n) * n == total
  {
    assert total == (total / n) * n + total % n;
  }

  lemma AtLeastOne(part: int, n: int)
    requires part >= 1 && n >= 1
    ensures part <= part * n
  {}

  /** n whole parts fit into a total only if n is at most the quotient. */
  lemma PartsFit(n: int, total: int, part: int)
    requires part > 0 && n * part <= total
    ensures n <= total / part
  {
    var q := total / part;
    assert (n - q) * part == n * part - q * part;
    LessThanOne(n - q, part);
  }

  lemma LessThanOne(x: int, part: int)
    requires part > 0 && x * part < part
    ensures x <= 0
  {}
}
