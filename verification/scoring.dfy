/** The additive adjustment and the final score: six factors, each on 0..100,
    earn up to a fixed number of points each; the points are added to the base
    score, the sum is rounded to an integer and capped at 850.
 */
module Scoring {

  /** The six rescaled factors of one ZIP code. */
  datatype Factors = Factors(
    coli: real,  // cost of living, inverted
    trf: real,   // tax rate factor, inverted
    ptr: real,   // property tax rate, inverted
    sitf: real,  // state income tax rate, inverted
    rsf: real,   // retirement savings factor, direct
    isf: real    // investment savings, direct
  )

  /** Points each factor earns at 100; a factor at 0 earns none. */
  datatype Weights = Weights(coli: real, trf: real, ptr: real, sitf: real, rsf: real, isf: real)

  /** The weighting the calculator uses. */
  const MuseWeights: Weights := Weights(15.0, 10.0, 10.0, 10.0, 5.0, 5.0)

  /** Highest possible final score. */
  const ScoreCap: int := 850

  predicate InPercentRange(x: real)
  {
    0.0 <= x <= 100.0
  }

  predicate FactorsInRange(f: Factors)
  {
    && InPercentRange(f.coli) && InPercentRange(f.trf) && InPercentRange(f.ptr)
    && InPercentRange(f.sitf) && InPercentRange(f.rsf) && InPercentRange(f.isf)
  }

  predicate NonNegative(w: Weights)
  {
    0.0 <= w.coli && 0.0 <= w.trf && 0.0 <= w.ptr && 0.0 <= w.sitf && 0.0 <= w.rsf && 0.0 <= w.isf
  }

  /** Most points a weighting can hand out. */
  function Budget(w: Weights): real
  {
    w.coli + w.trf + w.ptr + w.sitf + w.rsf + w.isf
  }

  /** Points one factor earns under weight `w`. */
  function Share(w: real, x: real): (p: real)
    requires 0.0 <= w
    ensures InPercentRange(x) ==> 0.0 <= p <= w
    ensures x == 0.0 ==> p == 0.0
    ensures x == 100.0 ==> p == w
    ensures 100.0 * p == w * x
  {
    var t := x / 100.0;
    ScaleWithin(w, t);
    w * t
  }

  /** Scaling a non-negative amount by a fraction in 0..1 stays between 0 and the amount. */
  lemma ScaleWithin(w: real, t: real)
    requires 0.0 <= w
    ensures 0.0 <= t <= 1.0 ==> 0.0 <= w * t <= w
  {
    assert w - w * t == w * (1.0 - t);
  }

  /** The adjustment added to the base score: each factor's share of its weight. */
  function Adjustment(w: Weights, f: Factors): (a: real)
    requires NonNegative(w)
    ensures FactorsInRange(f) ==> 0.0 <= a <= Budget(w)
    ensures 100.0 * a == w.coli * f.coli + w.trf * f.trf + w.ptr * f.ptr
                       + w.sitf * f.sitf + w.rsf * f.rsf + w.isf * f.isf
  {
    Share(w.coli, f.coli) + Share(w.trf, f.trf) + Share(w.ptr, f.ptr)
    + Share(w.sitf, f.sitf) + Share(w.rsf, f.rsf) + Share(w.isf, f.isf)
  }

  /** The calculator's weighting hands out at most 55 points. */
  lemma MuseBudget()
    ensures NonNegative(MuseWeights) && Budget(MuseWeights) == 55.0
  {
  }

  /** Under the calculator's weighting, cost of living earns up to 15 points,
      the three tax factors up to 10 each and the two savings factors up to 5 each. */
  lemma MuseAdjustment(f: Factors)
    ensures NonNegative(MuseWeights)
    ensures Adjustment(MuseWeights, f)
         == (15.0 * f.coli + 10.0 * f.trf + 10.0 * f.ptr + 10.0 * f.sitf + 5.0 * f.rsf + 5.0 * f.isf) / 100.0
  {
  }

  /** A factor that rises never lowers its share. */
  lemma ShareMonotone(w: real, x: real, y: real)
    requires 0.0 <= w
    requires x <= y
    ensures Share(w, x) <= Share(w, y)
  {
    var tx, ty := x / 100.0, y / 100.0;
    assert Share(w, x) == w * tx && Share(w, y) == w * ty;
    assert tx <= ty;
    ProductNonNegative(w, ty - tx);
    assert w * ty - w * tx == w * (ty - tx);
  }

  lemma ProductNonNegative(a: real, b: real)
    requires 0.0 <= a && 0.0 <= b
    ensures 0.0 <= a * b
  {
  }

  /** Factors that all rise, or stay, never lower the adjustment. */
  lemma AdjustmentMonotone(w: Weights, f: Factors, g: Factors)
    requires NonNegative(w)
    requires f.coli <= g.coli && f.trf <= g.trf && f.ptr <= g.ptr
    requires f.sitf <= g.sitf && f.rsf <= g.rsf && f.isf <= g.isf
    ensures Adjustment(w, f) <= Adjustment(w, g)
  {
    ShareMonotone(w.coli, f.coli, g.coli);
    ShareMonotone(w.trf, f.trf, g.trf);
    ShareMonotone(w.ptr, f.ptr, g.ptr);
    ShareMonotone(w.sitf, f.sitf, g.sitf);
    ShareMonotone(w.rsf, f.rsf, g.rsf);
    ShareMonotone(w.isf, f.isf, g.isf);
  }

  /** Both ends of the adjustment range are reached: all factors at 0 earn
      nothing and all at 100 earn the whole budget. */
  lemma AdjustmentExtremes(w: Weights)
    requires NonNegative(w)
    ensures Adjustment(w, Factors(0.0, 0.0, 0.0, 0.0, 0.0, 0.0)) == 0.0
    ensures Adjustment(w, Factors(100.0, 100.0, 100.0, 100.0, 100.0, 100.0)) == Budget(w)
  {
  }

  /** Rounding to the nearest integer, a tie going to the even neighbour. */
  function Round(x: real): (r: int)
    ensures x - 0.5 <= r as real <= x + 0.5
    ensures r as real - x == 0.5 || x - r as real == 0.5 ==> r % 2 == 0
  {
    var f := x.Floor;
    var d := x - f as real;
    if d < 0.5 then f
    else if 0.5 < d then f + 1
    else if f % 2 == 0 then f
    else f + 1
  }

  /** An integer rounds to itself. */
  lemma RoundInteger(n: int)
    ensures Round(n as real) == n
  {
  }

  /** Rounding never reverses the order of two values. */
  lemma RoundMonotone(x: real, y: real)
    requires x <= y
    ensures Round(x) <= Round(y)
  {
  }

  /** The final score: base plus adjustment, rounded, then capped at 850.
      There is no lower cap. */
  function FinalScore(base: int, adjustment: real): (r: int)
    ensures r <= ScoreCap
    ensures r < ScoreCap ==> r as real - 0.5 <= base as real + adjustment <= r as real + 0.5
    ensures r < ScoreCap && base as real + adjustment - r as real == 0.5 ==> r % 2 == 0
    ensures r < ScoreCap && r as real - (base as real + adjustment) == 0.5 ==> r % 2 == 0
    ensures r == ScoreCap ==> ScoreCap as real - 0.5 <= base as real + adjustment
  {
    var rounded := Round(base as real + adjustment);
    if rounded < ScoreCap then rounded else ScoreCap
  }

  /** A non-negative adjustment keeps the final score at or above a base score
      that does not exceed the cap, and an adjustment of at most `most` points
      lifts it by at most `most` points. */
  lemma FinalScoreBetween(base: int, adjustment: real, most: int)
    requires base <= ScoreCap
    requires 0.0 <= adjustment <= most as real
    ensures base <= FinalScore(base, adjustment) <= base + most
  {
    RoundInteger(base);
    RoundMonotone(base as real, base as real + adjustment);
    RoundInteger(base + most);
    RoundMonotone(base as real + adjustment, (base + most) as real);
  }

  /** A larger sum never gives a smaller final score. */
  lemma FinalScoreMonotone(b1: int, a1: real, b2: int, a2: real)
    requires b1 as real + a1 <= b2 as real + a2
    ensures FinalScore(b1, a1) <= FinalScore(b2, a2)
  {
    RoundMonotone(b1 as real + a1, b2 as real + a2);
  }
}
