/** One calculation: look the ZIP code up in the dataset, rescale the six
    indicators of the first matching row against their whole columns, derive
    the base score from the AGI and the row's PCPI, and combine them.
 */
module Engine {
  import N = Normalization
  import T = Tiers
  import S = Scoring

  /** One ZIP code's row of regional indicators. Every numeric field is present. */
  datatype Row = Row(
    zip: string,
    city: string,
    stateId: string,
    coli: real,     // cost-of-living index
    trf: real,      // tax rate factor
    pcpi: real,     // per-capita personal income
    ptr: real,      // property tax rate
    tr: real,       // state income tax rate
    rsf: real,      // retirement savings factor
    savings: real   // investment savings
  )

  /** The dataset, in row order; ZIP codes need not be unique. */
  type Dataset = seq<Row>

  /** The numeric columns of the dataset. */
  datatype Indicator = COLI | TRF | PCPI | PTR | TR | RSF | Savings

  function Value(row: Row, ind: Indicator): real
  {
    match ind
    case COLI => row.coli
    case TRF => row.trf
    case PCPI => row.pcpi
    case PTR => row.ptr
    case TR => row.tr
    case RSF => row.rsf
    case Savings => row.savings
  }

  /** All values of one indicator, in row order. */
  function Column(rows: Dataset, ind: Indicator): (col: seq<real>)
    ensures |col| == |rows|
    ensures forall i :: 0 <= i < |rows| ==> col[i] == Value(rows[i], ind)
  {
    seq(|rows|, i requires 0 <= i < |rows| => Value(rows[i], ind))
  }

  datatype Option<X> = None | Some(value: X)

  /** Some row carries the ZIP code. */
  predicate HasZip(rows: Dataset, zip: string)
  {
    exists i :: 0 <= i < |rows| && rows[i].zip == zip
  }

  /** Row `i` is the first one carrying the ZIP code. */
  predicate IsFirstMatch(rows: Dataset, zip: string, i: int)
  {
    && 0 <= i < |rows|
    && rows[i].zip == zip
    && forall j :: 0 <= j < i ==> rows[j].zip != zip
  }

  /** Index of the first row at or after `start` that carries the ZIP code. */
  function FirstMatchFrom(rows: Dataset, zip: string, start: nat): (r: Option<nat>)
    requires start <= |rows|
    ensures r.None? ==> forall j :: start <= j < |rows| ==> rows[j].zip != zip
    ensures r.Some? ==> start <= r.value < |rows| && rows[r.value].zip == zip
    ensures r.Some? ==> forall j :: start <= j < r.value ==> rows[j].zip != zip
    decreases |rows| - start
  {
    if start == |rows| then None
    else if rows[start].zip == zip then Some(start)
    else FirstMatchFrom(rows, zip, start + 1)
  }

  /** Index of the first row carrying the ZIP code, if any. */
  function FirstMatch(rows: Dataset, zip: string): (r: Option<nat>)
    ensures r.None? <==> !HasZip(rows, zip)
    ensures r.Some? ==> IsFirstMatch(rows, zip, r.value)
  {
    FirstMatchFrom(rows, zip, 0)
  }

  /** At most one row is the first carrying a ZIP code. */
  lemma FirstMatchUnique(rows: Dataset, zip: string, i: int)
    requires IsFirstMatch(rows, zip, i)
    ensures forall k :: IsFirstMatch(rows, zip, k) ==> k == i
  {
  }

  /** The six columns that are rescaled all have distinct minimum and maximum. */
  predicate ColumnsRescalable(rows: Dataset)
  {
    && N.NonDegenerate(Column(rows, COLI))
    && N.NonDegenerate(Column(rows, TRF))
    && N.NonDegenerate(Column(rows, PTR))
    && N.NonDegenerate(Column(rows, TR))
    && N.NonDegenerate(Column(rows, RSF))
    && N.NonDegenerate(Column(rows, Savings))
  }

  /** What the calculation needs once a ZIP code is found: rescalable columns
      and a non-zero PCPI in the matched row. A ZIP code that is not found
      needs nothing. */
  predicate Scorable(rows: Dataset, zip: string)
  {
    forall i :: 0 <= i < |rows| && IsFirstMatch(rows, zip, i) ==> ColumnsRescalable(rows) && rows[i].pcpi != 0.0
  }

  /** The six factors of row `i`: costs and taxes inverted, savings direct. */
  function FactorsAt(rows: Dataset, i: nat): (f: S.Factors)
    requires ColumnsRescalable(rows)
    requires i < |rows|
    ensures S.FactorsInRange(f)
    ensures f.coli == 100.0 <==> rows[i].coli == N.SeqMin(Column(rows, COLI))
    ensures f.coli == 0.0 <==> rows[i].coli == N.SeqMax(Column(rows, COLI))
    ensures f.trf == 100.0 <==> rows[i].trf == N.SeqMin(Column(rows, TRF))
    ensures f.trf == 0.0 <==> rows[i].trf == N.SeqMax(Column(rows, TRF))
    ensures f.ptr == 100.0 <==> rows[i].ptr == N.SeqMin(Column(rows, PTR))
    ensures f.ptr == 0.0 <==> rows[i].ptr == N.SeqMax(Column(rows, PTR))
    ensures f.sitf == 100.0 <==> rows[i].tr == N.SeqMin(Column(rows, TR))
    ensures f.sitf == 0.0 <==> rows[i].tr == N.SeqMax(Column(rows, TR))
    ensures f.rsf == 100.0 <==> rows[i].rsf == N.SeqMax(Column(rows, RSF))
    ensures f.rsf == 0.0 <==> rows[i].rsf == N.SeqMin(Column(rows, RSF))
    ensures f.isf == 100.0 <==> rows[i].savings == N.SeqMax(Column(rows, Savings))
    ensures f.isf == 0.0 <==> rows[i].savings == N.SeqMin(Column(rows, Savings))
    ensures && f.coli == N.InverseNormalize(Column(rows, COLI), i)
            && f.trf == N.InverseNormalize(Column(rows, TRF), i)
            && f.ptr == N.InverseNormalize(Column(rows, PTR), i)
            && f.sitf == N.InverseNormalize(Column(rows, TR), i)
            && f.rsf == N.Normalize(Column(rows, RSF), i)
            && f.isf == N.Normalize(Column(rows, Savings), i)
  {
    S.Factors(
      N.InverseNormalize(Column(rows, COLI), i),
      N.InverseNormalize(Column(rows, TRF), i),
      N.InverseNormalize(Column(rows, PTR), i),
      N.InverseNormalize(Column(rows, TR), i),
      N.Normalize(Column(rows, RSF), i),
      N.Normalize(Column(rows, Savings), i))
  }

  /** Everything one calculation produces. */
  datatype ScoreResult = ScoreResult(
    row: Row,
    status: T.Status,
    baseScore: int,
    adjustment: real,
    finalScore: int
  )

  /** A calculation either scores the ZIP code's row or reports the ZIP code missing. */
  datatype Evaluation = Scored(result: ScoreResult) | ZipNotFound

  /** Score an AGI against the first row carrying the ZIP code. */
  function Evaluate(rows: Dataset, zip: string, agi: real): (e: Evaluation)
    requires Scorable(rows, zip)
    ensures e.ZipNotFound? <==> !HasZip(rows, zip)
    ensures e.Scored? ==> exists i :: IsFirstMatch(rows, zip, i) && rows[i] == e.result.row
    ensures e.Scored? ==> (e.result.baseScore, e.result.status) == T.BaseScoreFromAgi(agi, e.result.row.pcpi)
    ensures e.Scored? ==> 0.0 <= e.result.adjustment <= 55.0
    ensures e.Scored? ==> e.result.baseScore <= e.result.finalScore <= e.result.baseScore + 55
    ensures e.Scored? ==> 350 <= e.result.finalScore <= 850
    ensures e.Scored? ==> forall i :: IsFirstMatch(rows, zip, i) ==>
              && e.result.adjustment == S.Adjustment(S.MuseWeights, FactorsAt(rows, i))
              && e.result.finalScore == S.FinalScore(e.result.baseScore, e.result.adjustment)
  {
    match FirstMatch(rows, zip)
    case None => ZipNotFound
    case Some(i) =>
      FirstMatchUnique(rows, zip, i);
      var row := rows[i];
      var (base, status) := T.BaseScoreFromAgi(agi, row.pcpi);
      var adjustment := S.Adjustment(S.MuseWeights, FactorsAt(rows, i));
      S.MuseBudget();
      S.FinalScoreBetween(base, adjustment, 55);
      Scored(ScoreResult(row, status, base, adjustment, S.FinalScore(base, adjustment)))
  }

  /** When ZIP codes are unique, a score is always computed from the one row
      that carries the ZIP code: its row, its PCPI and its factors. */
  lemma EvaluateUsesTheZipRow(rows: Dataset, zip: string, agi: real, j: nat)
    requires Scorable(rows, zip)
    requires forall a, b :: 0 <= a < b < |rows| ==> rows[a].zip != rows[b].zip
    requires j < |rows| && rows[j].zip == zip
    ensures IsFirstMatch(rows, zip, j) && ColumnsRescalable(rows) && rows[j].pcpi != 0.0
    ensures Evaluate(rows, zip, agi).Scored?
    ensures Evaluate(rows, zip, agi).result.row == rows[j]
    ensures Evaluate(rows, zip, agi).result.adjustment == S.Adjustment(S.MuseWeights, FactorsAt(rows, j))
    ensures Evaluate(rows, zip, agi).result.finalScore
         == S.FinalScore(T.BaseScoreFromAgi(agi, rows[j].pcpi).0, S.Adjustment(S.MuseWeights, FactorsAt(rows, j)))
  {
    assert IsFirstMatch(rows, zip, j);
    var e := Evaluate(rows, zip, agi);
    var i :| IsFirstMatch(rows, zip, i) && rows[i] == e.result.row;
    FirstMatchUnique(rows, zip, j);
  }

  /** With the same dataset and ZIP code and a positive PCPI, a larger AGI
      never gives a lower final score. */
  lemma EvaluateMonotoneInAgi(rows: Dataset, zip: string, agi1: real, agi2: real)
    requires Scorable(rows, zip)
    requires forall i :: IsFirstMatch(rows, zip, i) ==> 0.0 < rows[i].pcpi
    requires agi1 <= agi2
    ensures Evaluate(rows, zip, agi1).Scored? == Evaluate(rows, zip, agi2).Scored?
    ensures Evaluate(rows, zip, agi1).Scored? ==>
              Evaluate(rows, zip, agi1).result.finalScore <= Evaluate(rows, zip, agi2).result.finalScore
  {
    match FirstMatch(rows, zip)
    case None =>
    case Some(i) =>
      var pcpi := rows[i].pcpi;
      var adjustment := S.Adjustment(S.MuseWeights, FactorsAt(rows, i));
      var b1, b2 := T.BaseScoreFromAgi(agi1, pcpi).0, T.BaseScoreFromAgi(agi2, pcpi).0;
      T.BaseScoreFromAgiMonotone(agi1, agi2, pcpi);
      S.FinalScoreMonotone(b1, adjustment, b2, adjustment);
  }

  /** Every AGI at or above the cap gives the same outcome as the cap itself. */
  lemma EvaluateAgiCap(rows: Dataset, zip: string, agi: real)
    requires Scorable(rows, zip)
    requires T.AgiCap <= agi
    ensures Evaluate(rows, zip, agi) == Evaluate(rows, zip, T.AgiCap)
  {
    match FirstMatch(rows, zip)
    case None =>
    case Some(i) =>
      T.AgiCapSaturates(agi, rows[i].pcpi);
  }
}
