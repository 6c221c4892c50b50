/** Small functions and facts that several modules share. */
module Basics {
  function Min(a: int, b: int): int { if a < b then a else b }

  function Max(a: int, b: int): int { if a < b then b else a }

  function Init<T>(s: seq<T>): seq<T>
    requires s != []
  {
    s[..|s| - 1]
  }

  function Last<T>(s: seq<T>): T
    requires s != []
  {
    s[|s| - 1]
  }

  lemma SubsetSize<T>(a: set<T>, b: set<T>)
    requires a <= b
    ensures |a| <= |b| && |b - a| == |b| - |a|
  {
    assert b == a + (b - a);
  }

  // --- Arithmetic ------------------------------------------------------------------------

  lemma CancelFactor(d: int, x: int, y: int)
    requires d > 0 && d * x < d * y
    ensures x < y
  {
    assert d * (y - x) == d * y - d * x > 0;
  }

  lemma Quotient(n: int, d: int)
    requires d > 0
    ensures d * (n / d) <= n < d * (n / d + 1)
  {
  }

  /** Math.round(part / whole * 100). */
  function RoundPercent(part: int, whole: int): (r: int)
    requires whole > 0
    ensures part >= 0 ==> r >= 0
  {
    (200 * part + whole) / (2 * whole)
  }

  lemma RoundPercentMonotone(a: int, b: int, whole: int)
    requires 0 <= a <= b <= whole && whole > 0
    ensures 0 <= RoundPercent(a, whole) <= RoundPercent(b, whole) <= 100
  {
    var d := 2 * whole;
    var x, y := RoundPercent(a, whole), RoundPercent(b, whole);
    Quotient(200 * a + whole, d);
    Quotient(200 * b + whole, d);
    CancelFactor(d, x, y + 1);
    CancelFactor(d, y, 101);
    CancelFactor(d, -1, x);
  }
}
