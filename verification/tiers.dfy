/** The baseline score: the user's AGI, capped, is divided by the local
    per-capita personal income (PCPI) and the ratio is placed in one of ten
    half-open tiers, each with a base score and a status label.
 */
module Tiers {

  /** The ten tiers, lowest first. */
  datatype Status =
    | CriticalStress
    | SevereStress
    | FinancialStress
    | AtRisk
    | NearAverage
    | Stable
    | Good
    | VeryGood
    | Excellent
    | TopPerformer

  /** AGI above this amount counts as this amount. */
  const AgiCap: real := 1000000.0

  /** Lower bounds of tiers 1 to 9; tier 0 has no lower bound and tier 9 no upper one. */
  const Bounds: seq<real> := [0.6, 0.7, 0.8, 0.9, 1.0, 1.2, 1.5, 2.0, 2.5]

  /** The tiers in ascending order. */
  const Ladder: seq<Status> :=
    [CriticalStress, SevereStress, FinancialStress, AtRisk, NearAverage,
     Stable, Good, VeryGood, Excellent, TopPerformer]

  /** The base scores every tier can give. */
  const BaseScores: set<int> := {350, 400, 450, 500, 550, 600, 675, 750, 800, 850}

  /** Position of a tier on the ladder. */
  function Rank(s: Status): (k: nat)
    ensures k < |Ladder| && Ladder[k] == s
  {
    match s
    case CriticalStress => 0
    case SevereStress => 1
    case FinancialStress => 2
    case AtRisk => 3
    case NearAverage => 4
    case Stable => 5
    case Good => 6
    case VeryGood => 7
    case Excellent => 8
    case TopPerformer => 9
  }

  /** Base score of a tier; higher tiers score strictly more. */
  function BaseScore(s: Status): (b: int)
    ensures b in BaseScores
    ensures 350 <= b <= 850
  {
    match s
    case CriticalStress => 350
    case SevereStress => 400
    case FinancialStress => 450
    case AtRisk => 500
    case NearAverage => 550
    case Stable => 600
    case Good => 675
    case VeryGood => 750
    case Excellent => 800
    case TopPerformer => 850
  }

  /** Coloured markers that open every label: red for the three stress
      tiers, orange for the two middle tiers, yellow for "Stable", green above. */
  const Red: char := '\U{1F534}'
  const Orange: char := '\U{1F7E0}'
  const Yellow: char := '\U{1F7E1}'
  const Green: char := '\U{1F7E2}'

  /** Status label shown to the user: a coloured marker, a space, the tier's name. */
  function Label(s: Status): (l: string)
    ensures |l| > 2 && l[1] == ' '
    ensures l[0] == Red <==> BaseScore(s) < 500
    ensures l[0] == Orange <==> 500 <= BaseScore(s) < 600
    ensures l[0] == Yellow <==> BaseScore(s) == 600
    ensures l[0] == Green <==> 600 < BaseScore(s)
  {
    match s
    case CriticalStress => "\U{1F534} Critical Financial Stress"
    case SevereStress => "\U{1F534} Severe Stress"
    case FinancialStress => "\U{1F534} Financial Stress"
    case AtRisk => "\U{1F7E0} At Risk"
    case NearAverage => "\U{1F7E0} Near Average"
    case Stable => "\U{1F7E1} Stable"
    case Good => "\U{1F7E2} Good"
    case VeryGood => "\U{1F7E2} Very Good"
    case Excellent => "\U{1F7E2} Excellent"
    case TopPerformer => "\U{1F7E2} Top Performer (Cap)"
  }

  /** No two tiers share a label. */
  lemma LabelsDistinct(s: Status, t: Status)
    ensures Label(s) == Label(t) <==> s == t
  {
  }

  /** Ratio `ratio` lies in tier `k`: at or above the tier's lower bound and
      strictly below the next tier's. */
  predicate InTier(ratio: real, k: nat)
    requires k < |Ladder|
  {
    && (k == 0 || Bounds[k - 1] <= ratio)
    && (k == |Ladder| - 1 || ratio < Bounds[k])
  }

  /** The tier of a ratio, checked from the lowest up; the first condition that
      holds decides. */
  function StatusOf(ratio: real): (s: Status)
    ensures InTier(ratio, Rank(s))
  {
    if ratio < 0.6 then CriticalStress
    else if ratio < 0.7 then SevereStress
    else if ratio < 0.8 then FinancialStress
    else if ratio < 0.9 then AtRisk
    else if ratio < 1.0 then NearAverage
    else if ratio < 1.2 then Stable
    else if ratio < 1.5 then Good
    else if ratio < 2.0 then VeryGood
    else if ratio < 2.5 then Excellent
    else TopPerformer
  }

  /** AGI after the cap. */
  function CappedAgi(agi: real): (c: real)
    ensures c <= AgiCap
    ensures c == agi || (c == AgiCap && AgiCap < agi)
  {
    if agi < AgiCap then agi else AgiCap
  }

  /** Base score and status for an AGI against the local PCPI. A zero PCPI
      is the one input the division cannot take. */
  function BaseScoreFromAgi(agi: real, pcpi: real): (r: (int, Status))
    requires pcpi != 0.0
    ensures r.0 == BaseScore(r.1) && r.0 in BaseScores
    ensures InTier(CappedAgi(agi) / pcpi, Rank(r.1))
  {
    var s := StatusOf(CappedAgi(agi) / pcpi);
    (BaseScore(s), s)
  }

  /** The lower bounds rise strictly, so the tiers do not overlap. */
  lemma BoundsAscending(a: nat, b: nat)
    requires a < b < |Bounds|
    ensures Bounds[a] < Bounds[b]
  {
  }

  /** A ratio lies in exactly one tier: the one `StatusOf` picks. */
  lemma TierUnique(ratio: real, k: nat)
    requires k < |Ladder|
    requires InTier(ratio, k)
    ensures k == Rank(StatusOf(ratio))
  {
    var j := Rank(StatusOf(ratio));
    if k < j {
      BoundsAscending(k, j - 1);
    } else if j < k {
      BoundsAscending(j, k - 1);
    }
  }

  /** A higher ratio never lands in a lower tier. */
  lemma StatusMonotone(r1: real, r2: real)
    requires r1 <= r2
    ensures Rank(StatusOf(r1)) <= Rank(StatusOf(r2))
  {
    var j, k := Rank(StatusOf(r1)), Rank(StatusOf(r2));
    if k < j {
      BoundsAscending(k, j - 1);
    }
  }

  /** Higher tiers carry strictly higher base scores. */
  lemma BaseScoreStrictlyIncreasing(s: Status, t: Status)
    requires Rank(s) < Rank(t)
    ensures BaseScore(s) < BaseScore(t)
  {
  }

  /** The base score never falls as the ratio rises. */
  lemma BaseScoreMonotone(r1: real, r2: real)
    requires r1 <= r2
    ensures BaseScore(StatusOf(r1)) <= BaseScore(StatusOf(r2))
  {
    StatusMonotone(r1, r2);
    if Rank(StatusOf(r1)) < Rank(StatusOf(r2)) {
      BaseScoreStrictlyIncreasing(StatusOf(r1), StatusOf(r2));
    }
  }

  /** A ratio exactly on a bound belongs to the tier that bound opens. */
  lemma BoundaryGoesUp(k: nat)
    requires 0 < k < |Ladder|
    ensures StatusOf(Bounds[k - 1]) == Ladder[k]
  {
    TierUnique(Bounds[k - 1], k);
  }

  /** For instance a ratio of exactly 0.8 is "At Risk" with 500, not 450. */
  lemma RatioPointEightIsAtRisk()
    ensures StatusOf(0.8) == AtRisk && BaseScore(StatusOf(0.8)) == 500
  {
    BoundaryGoesUp(3);
  }

  /** With a positive PCPI, a larger AGI never lowers the base score. */
  lemma BaseScoreFromAgiMonotone(agi1: real, agi2: real, pcpi: real)
    requires 0.0 < pcpi
    requires agi1 <= agi2
    ensures BaseScoreFromAgi(agi1, pcpi).0 <= BaseScoreFromAgi(agi2, pcpi).0
  {
    var c1, c2 := CappedAgi(agi1), CappedAgi(agi2);
    assert c1 <= c2;
    assert c1 / pcpi <= c2 / pcpi by {
      assert c2 / pcpi - c1 / pcpi == (c2 - c1) / pcpi;
    }
    BaseScoreMonotone(c1 / pcpi, c2 / pcpi);
  }

  /** Every AGI at or above the cap scores exactly like the cap itself. */
  lemma AgiCapSaturates(agi: real, pcpi: real)
    requires pcpi != 0.0
    requires AgiCap <= agi
    ensures BaseScoreFromAgi(agi, pcpi) == BaseScoreFromAgi(AgiCap, pcpi)
  {
    assert CappedAgi(agi) == CappedAgi(AgiCap);
  }
}
