# Muse Score engine — a Dafny model

The Muse Score calculator turns a user's adjusted gross income (AGI) and a
ZIP code into a credit-score-like number. Its scoring engine, in `app.py`,
works in four steps, and this project models each one as pure functions over
Dafny's exact `real` numbers:

1. **Lookup** (`Engine`): the dataset is searched for the ZIP code. If no
   row carries it, the calculation stops with "ZIP code not found" and no
   score is computed. Otherwise the first row carrying it is used.
2. **Rescaling** (`Normalization`): six indicator columns are rescaled to
   0..100 using each column's minimum and maximum over the whole dataset.
   Cost of living, tax rate factor, property tax rate and state income tax
   rate are inverted (less is better). Retirement savings factor and
   investment savings are direct (more is better). The matched row's values
   are then read off.
3. **Baseline** (`Tiers`): the AGI is capped at 1,000,000 and divided by
   the row's per-capita personal income (PCPI). The ratio falls in one of ten
   half-open tiers, from 350 "Critical Financial Stress" below 0.6 up to 850
   "Top Performer (Cap)" at 2.5 and above. The tiers are checked from the
   lowest up and the first match wins.
4. **Final score** (`Scoring`): the six factors earn 15, 10, 10, 10, 5 and 5
   points at 100. The sum of those points is added to the base score. The
   result is rounded half to even, as Python's `round` does, and capped at 850.

`Engine.Evaluate` composes the four steps and returns either
`Scored(result)` or `ZipNotFound`.

The dataset is a sequence of rows in file order rather than a map keyed by
ZIP code. The calculator filters the table and takes the first matching
row, so a ZIP code may appear more than once. It also rescales over whole
columns and then reads the matched row's position. `Engine.EvaluateUsesTheZipRow`
shows that, when ZIP codes are unique, this is the same as a keyed lookup.

The score has no lower clamp. It is still at least 350, because the base
score is at least 350 and the adjustment is never negative.

## Model

| member | source | states |
|---|---|---|
| Normalization.SeqMin | app.py:19 | The column minimum is one of the column's values and no value is smaller |
| Normalization.SeqMax | app.py:19 | The column maximum is one of the column's values and no value is larger |
| Normalization.Percent | app.py:19 | For a positive whole, the percentage times the whole over 100 is the part again; a part within [0, whole] gives a value in [0, 100], 0 exactly for a part of 0 and 100 exactly for the whole |
| Normalization.PercentStrictlyIncreasing | app.py:19 | A strictly larger part of the same whole gives a strictly larger percentage |
| Normalization.PercentComplement | app.py:19-22 | A part and the rest of the whole together make up exactly 100 percent |
| Normalization.Normalize | app.py:18-19 | The direct factor of any row lies in [0, 100]; it is 0 exactly at the column minimum and 100 exactly at the maximum; and it is the raw value's position within the column's range: minimum + factor × (maximum − minimum) / 100 gives the raw value back |
| Normalization.InverseNormalize | app.py:21-22 | The inverted factor lies in [0, 100]; it is 0 exactly at the column maximum and 100 exactly at the minimum; and maximum − factor × (maximum − minimum) / 100 gives the raw value back |
| Normalization.NormalizeComplement | app.py:18-22 | For every element of a non-constant column, the direct and inverted factors add up to 100 |
| Normalization.NormalizeMonotone | app.py:18-22 | A larger raw value never gets a smaller direct factor nor a larger inverted factor, and a strictly larger raw value gets a strictly larger direct factor and a strictly smaller inverted factor |
| Tiers.BaseScore | app.py:29-48 | Every tier's base score is one of 350, 400, 450, 500, 550, 600, 675, 750, 800, 850 |
| Tiers.Label | app.py:29-48 | Every label is a coloured marker, a space and the tier's name; the marker is red exactly below a base score of 500, orange exactly for 500 and 550, yellow exactly for 600 and green exactly above 600 |
| Tiers.LabelsDistinct | app.py:29-48 | Two tiers share a label only if they are the same tier |
| Tiers.StatusOf | app.py:29-48 | The chosen tier is one whose half-open interval [lower bound, next bound) contains the ratio |
| Tiers.TierUnique | app.py:29-48 | The intervals do not overlap: any tier that contains the ratio is the tier the first-match chain picks |
| Tiers.StatusMonotone | app.py:29-48 | A larger ratio never lands in a lower tier |
| Tiers.BaseScoreStrictlyIncreasing | app.py:29-48 | A higher tier always carries a strictly higher base score |
| Tiers.BaseScoreMonotone | app.py:29-48 | The base score is non-decreasing in the ratio |
| Tiers.BoundaryGoesUp | app.py:29-46 | A ratio exactly on a tier bound belongs to the higher tier |
| Tiers.RatioPointEightIsAtRisk | app.py:33-36 | A ratio of exactly 0.8 gives 500 "At Risk", not 450 |
| Tiers.CappedAgi | app.py:26 | The capped AGI never exceeds 1,000,000 and equals the AGI unless the AGI is larger |
| Tiers.BaseScoreFromAgi | app.py:25-48 | The base score matches the returned status, is one of the ten tier scores, and the status's interval contains capped AGI / PCPI |
| Tiers.BaseScoreFromAgiMonotone | app.py:25-48 | With a positive PCPI, a larger AGI never lowers the base score |
| Tiers.AgiCapSaturates | app.py:26-27 | Every AGI at or above 1,000,000 gives the same base score and status as 1,000,000 |
| Scoring.Share | app.py:80-85 | A factor earns points in proportion to its value: 100 × points = weight × factor, so a factor in [0, 100] earns between 0 and its weight, 0 earns nothing and 100 earns the full weight |
| Scoring.Adjustment | app.py:79-86 | 100 × adjustment is the sum of each weight times its own factor (COLI with the COLI weight, TRF with the TRF weight, and so on); with factors in [0, 100] the adjustment lies between 0 and the sum of the weights |
| Scoring.MuseAdjustment | app.py:79-86 | Under the calculator's weighting the adjustment is (15 × COLI + 10 × TRF + 10 × PTR + 10 × SITF + 5 × RSF + 5 × ISF) / 100 |
| Scoring.MuseBudget | app.py:79-86 | The calculator's weights 15, 10, 10, 10, 5, 5 are non-negative and sum to 55 |
| Scoring.AdjustmentMonotone | app.py:79-86 | Raising any factor never lowers the adjustment |
| Scoring.AdjustmentExtremes | app.py:79-86 | All factors at 0 give an adjustment of 0, and all at 100 give the full budget, so the bounds are reached |
| Scoring.Round | app.py:87 | The rounded value is within 1/2 of its argument, and a tie goes to the even integer |
| Scoring.RoundInteger | app.py:87 | An integer rounds to itself |
| Scoring.RoundMonotone | app.py:87 | Rounding preserves order |
| Scoring.FinalScore | app.py:87 | The final score never exceeds 850. Below 850 it is within 1/2 of base + adjustment, and a tie goes to the even integer. It is exactly 850 only when base + adjustment is at least 849.5 |
| Scoring.FinalScoreBetween | app.py:87 | With a base of at most 850 and an adjustment in [0, k], the final score lies in [base, base + k] |
| Scoring.FinalScoreMonotone | app.py:87 | A larger base + adjustment never gives a smaller final score |
| Engine.Column | app.py:70-75 | A column holds one value per row, namely that row's indicator, in row order |
| Engine.FirstMatchFrom | app.py:66-67 | The search from a position finds the first row from there on that carries the ZIP code, or reports that none does |
| Engine.FirstMatch | app.py:66-67 | No index is found exactly when no row carries the ZIP code; otherwise it is the first such row |
| Engine.FactorsAt | app.py:69-75 | Each factor is the matched row's value rescaled against its whole column: COLI, TRF, PTR and TR by the inverted rescaling and RSF and Savings by the direct one, whose round trips fix every value. All six lie in [0, 100]; the inverted ones are 100 exactly at the column minimum and 0 exactly at the maximum, the direct ones the reverse |
| Engine.Evaluate | app.py:66-87 | The outcome is ZipNotFound exactly when no row carries the ZIP code (lines 126-127). Otherwise it uses the first matching row, its base score and status come from that row's PCPI, the adjustment lies in [0, 55], and the final score lies in [base, base + 55] and in [350, 850]. The adjustment is that of the first matching row's factors, and the final score is the capped rounding of base + that adjustment |
| Engine.FirstMatchUnique | app.py:67 | At most one index is the first row carrying a ZIP code, so the row taken is well defined |
| Engine.EvaluateUsesTheZipRow | app.py:66-87 | When ZIP codes are unique, any ZIP code that is present is scored from the one row that carries it. The reported row, the adjustment from that row's six factors and the final score from that row's PCPI all come from it |
| Engine.EvaluateMonotoneInAgi | app.py:78-87 | For a fixed ZIP code with a positive PCPI, a larger AGI never gives a lower final score |
| Engine.EvaluateAgiCap | app.py:26-27 | Every AGI at or above 1,000,000 gives the same outcome as exactly 1,000,000 |

## Left out

- Loading the spreadsheet (app.py:6-15): reading Excel, coercing to numbers, dropping incomplete rows and caching are I/O and a foreign library. Every modelled row is assumed fully numeric, as loading guarantees.
- The page layout, input widgets, button, error message and HTML summary (app.py:51-63, 111-127) are presentation. The missing-ZIP branch is modelled as the `ZipNotFound` outcome.
- The gauge chart and its colour bands (app.py:89-109) are presentation.
- Floating point: all arithmetic is over exact reals. The model does not claim bit-exact agreement with IEEE doubles. This matters mostly near tier bounds, where a float ratio such as 0.6 may land on the other side of a bound.
- Engine.Scorable: a column whose minimum equals its maximum makes app.py:19 and app.py:22 divide zero by zero, and the source has no fallback. Such columns are excluded by precondition, but only once the ZIP code is found, because the missing-ZIP branch computes nothing.
- Tiers.BaseScoreFromAgi: a PCPI of exactly 0 makes app.py:27 divide by zero; numpy would give an infinite ratio. This is excluded by precondition. A negative PCPI is allowed. With a non-negative AGI it gives a ratio below 0.6, as in the source.
- The AGI widget's bounds of 1,000 to 1,000,000 (app.py:61) are input validation and are not imposed. The engine handles any AGI.
