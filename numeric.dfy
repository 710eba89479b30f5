/** Integer arithmetic standing for the JavaScript number expressions of the scorers. */
module Numeric {

  /** Math.round(num / den) for a non-negative ratio: JavaScript rounds halves upwards. */
  function RoundRatio(num: nat, den: nat): (r: nat)
    requires den > 0
    ensures 2 * den * r <= 2 * num + den < 2 * den * (r + 1)
  {
    var q := (2 * num + den) / (2 * den);
    assert q * (2 * den) <= 2 * num + den < (q + 1) * (2 * den);
    q
  }

  /** The two bounds of RoundRatio determine its value. */
  lemma RoundRatioUnique(num: nat, den: nat, r: nat)
    requires den > 0
    requires 2 * den * r <= 2 * num + den < 2 * den * (r + 1)
    ensures r == RoundRatio(num, den)
  {
    var q := RoundRatio(num, den);
    if r < q {
      assert 2 * den * (r + 1) <= 2 * den * q by { MulMonotone(2 * den, r + 1, q); }
    } else if r > q {
      assert 2 * den * (q + 1) <= 2 * den * r by { MulMonotone(2 * den, q + 1, r); }
    }
  }

  lemma MulMonotone(k: nat, a: nat, b: nat)
    requires a <= b
    ensures k * a <= k * b
  {
  }

  /** Math.round(part / whole * 100), the accuracy percentage of part correct characters out of whole. */
  function Percent(part: nat, whole: nat): (p: nat)
    requires whole > 0
    ensures 2 * whole * p <= 200 * part + whole < 2 * whole * (p + 1)
    ensures part <= whole ==> p <= 100
    ensures part == whole ==> p == 100
    ensures part == 0 ==> p == 0
  {
    PercentFacts(part, whole);
    RoundRatio(100 * part, whole)
  }

  /** Math.round(100 * part / whole) lies within half a point of the exact percentage, and its edge values. */
  lemma PercentFacts(part: nat, whole: nat)
    requires whole > 0
    ensures var p := RoundRatio(100 * part, whole); 2 * whole * p <= 200 * part + whole < 2 * whole * (p + 1)
    ensures part <= whole ==> RoundRatio(100 * part, whole) <= 100
    ensures part == whole ==> RoundRatio(100 * part, whole) == 100
    ensures part == 0 ==> RoundRatio(100 * part, whole) == 0
  {
    var p := RoundRatio(100 * part, whole);
    if part <= whole {
      MulMonotone(2 * whole, part, whole);
      if p > 100 {
        MulMonotone(2 * whole, 101, p);
      }
    }
    if part == whole {
      RoundRatioUnique(100 * part, whole, 100);
    }
    if part == 0 {
      RoundRatioUnique(0, whole, 0);
    }
  }

  /** Math.round((correct / 5) / (ms / 60000)): words per minute from correct characters and milliseconds. */
  function WordsPerMinute(correct: nat, ms: nat): (w: nat)
    requires ms > 0
  {
    RoundRatio(12000 * correct, ms)
  }

  /** Math.floor(Math.sqrt(n)) for a natural number, the largest root whose square does not exceed n. */
  function Isqrt(n: nat): (r: nat)
    ensures r * r <= n < (r + 1) * (r + 1)
  {
    if n == 0 then 0
    else
      var s := Isqrt(n - 1);
      if (s + 1) * (s + 1) <= n then s + 1 else s
  }

  lemma SquareMonotone(a: nat, b: nat)
    requires a <= b
    ensures a * a <= b * b
  {
    MulMonotone(a, a, b);
    MulMonotone(b, a, b);
  }

  lemma SquareSucc(a: nat)
    ensures (a + 1) * (a + 1) == a * a + 2 * a + 1
  {
  }

  /** Squares of naturals order their roots. */
  lemma SquareLess(a: nat, b: nat)
    requires a * a < b * b
    ensures a < b
  {
    if b <= a {
      SquareMonotone(b, a);
    }
  }

  function Max(a: int, b: int): int { if a >= b then a else b }

  function Min(a: int, b: int): int { if a <= b then a else b }
}
