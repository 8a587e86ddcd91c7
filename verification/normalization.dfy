/** Min-max rescaling of one indicator column to the range 0..100, in the
    direct orientation (more is better) and the inverted one (less is better).

    A column is the non-empty sequence of one indicator's values over every row
    of the dataset; a factor is the rescaled value at the position of one row.
 */
module Normalization {

  /** The smallest value of a non-empty sequence. */
  function Smallest(s: seq<real>): (m: real)
    requires |s| > 0
    ensures m in s
    ensures forall k :: 0 <= k < |s| ==> m <= s[k]
  {
    if |s| == 1 then s[0]
    else
      var rest := Smallest(s[1..]);
      assert forall k :: 1 <= k < |s| ==> s[k] == s[1..][k - 1];
      if s[0] <= rest then s[0] else rest
  }

  /** The largest value of a non-empty sequence. */
  function Largest(s: seq<real>): (m: real)
    requires |s| > 0
    ensures m in s
    ensures forall k :: 0 <= k < |s| ==> s[k] <= m
  {
    if |s| == 1 then s[0]
    else
      var rest := Largest(s[1..]);
      assert forall k :: 1 <= k < |s| ==> s[k] == s[1..][k - 1];
      if rest <= s[0] then s[0] else rest
  }

  /** The minimum of a column. It is a plain name for `Smallest`, so that the
      rescaling contracts below refer to a single, non-recursive term. */
  function SeqMin(col: seq<real>): (m: real)
    requires |col| > 0
    ensures m in col
    ensures forall k :: 0 <= k < |col| ==> m <= col[k]
  {
    Smallest(col)
  }

  /** The maximum of a column, likewise a plain name for `Largest`. */
  function SeqMax(col: seq<real>): (m: real)
    requires |col| > 0
    ensures m in col
    ensures forall k :: 0 <= k < |col| ==> col[k] <= m
  {
    Largest(col)
  }

  /** A column that can be rescaled: it has a value and not all values agree.
      A column whose minimum equals its maximum makes the rescaling divide by zero. */
  predicate NonDegenerate(col: seq<real>)
  {
    |col| > 0 && SeqMin(col) < SeqMax(col)
  }

  /** A part of a positive whole, on a scale of 100. */
  function Percent(part: real, whole: real): (r: real)
    requires 0.0 < whole
    ensures r * whole == 100.0 * part
    ensures r * whole / 100.0 == part
    ensures 0.0 <= part <= whole ==> 0.0 <= r <= 100.0
    ensures r == 0.0 <==> part == 0.0
    ensures r == 100.0 <==> part == whole
  {
    var q := 100.0 * part / whole;
    assert q * whole == 100.0 * part;
    q
  }

  /** A larger part of the same whole is a strictly larger percentage. */
  lemma PercentStrictlyIncreasing(a: real, b: real, whole: real)
    requires 0.0 < whole
    requires a < b
    ensures Percent(a, whole) < Percent(b, whole)
  {
    SharedDenominator(100.0 * a, 100.0 * (b - a), whole);
    assert 0.0 < 100.0 * (b - a) / whole;
  }

  /** Fractions over one denominator add by their numerators. */
  lemma SharedDenominator(x: real, y: real, d: real)
    requires d != 0.0
    ensures x / d + y / d == (x + y) / d
  {
  }

  /** A part and the rest of the whole make up 100 percent together. */
  lemma PercentComplement(a: real, whole: real)
    requires 0.0 < whole
    ensures Percent(a, whole) + Percent(whole - a, whole) == 100.0
  {
    var p, q := Percent(a, whole), Percent(whole - a, whole);
    assert (p + q - 100.0) * whole == 0.0;
  }

  /** Direct rescaling: the column minimum goes to 0 and the maximum to 100. */
  function Normalize(col: seq<real>, i: nat): (r: real)
    requires NonDegenerate(col)
    requires i < |col|
    ensures 0.0 <= r <= 100.0
    ensures r == 0.0 <==> col[i] == SeqMin(col)
    ensures r == 100.0 <==> col[i] == SeqMax(col)
    ensures SeqMin(col) + r * (SeqMax(col) - SeqMin(col)) / 100.0 == col[i]
  {
    var lo, hi := SeqMin(col), SeqMax(col);
    assert lo <= col[i] <= hi;
    Percent(col[i] - lo, hi - lo)
  }

  /** Inverted rescaling: the column maximum goes to 0 and the minimum to 100. */
  function InverseNormalize(col: seq<real>, i: nat): (r: real)
    requires NonDegenerate(col)
    requires i < |col|
    ensures 0.0 <= r <= 100.0
    ensures r == 0.0 <==> col[i] == SeqMax(col)
    ensures r == 100.0 <==> col[i] == SeqMin(col)
    ensures SeqMax(col) - r * (SeqMax(col) - SeqMin(col)) / 100.0 == col[i]
  {
    var lo, hi := SeqMin(col), SeqMax(col);
    assert lo <= col[i] <= hi;
    Percent(hi - col[i], hi - lo)
  }

  /** The two orientations are complementary on every element. */
  lemma NormalizeComplement(col: seq<real>, i: nat)
    requires NonDegenerate(col)
    requires i < |col|
    ensures Normalize(col, i) + InverseNormalize(col, i) == 100.0
  {
    var lo, hi := SeqMin(col), SeqMax(col);
    PercentComplement(col[i] - lo, hi - lo);
    assert (hi - lo) - (col[i] - lo) == hi - col[i];
  }

  /** Direct rescaling preserves the order of the raw values and the inverted
      rescaling reverses it, strictly so for distinct raw values. */
  lemma NormalizeMonotone(col: seq<real>, i: nat, j: nat)
    requires NonDegenerate(col)
    requires i < |col| && j < |col|
    requires col[i] <= col[j]
    ensures Normalize(col, i) <= Normalize(col, j)
    ensures InverseNormalize(col, j) <= InverseNormalize(col, i)
    ensures col[i] < col[j] ==> Normalize(col, i) < Normalize(col, j)
    ensures col[i] < col[j] ==> InverseNormalize(col, j) < InverseNormalize(col, i)
  {
    var lo, hi := SeqMin(col), SeqMax(col);
    if col[i] < col[j] {
      PercentStrictlyIncreasing(col[i] - lo, col[j] - lo, hi - lo);
      PercentStrictlyIncreasing(hi - col[j], hi - col[i], hi - lo);
    }
  }
}
