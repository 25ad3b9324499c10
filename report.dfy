/**
 * The figures of the cleaning report: the number of removed rows and the percentages, each
 * `rows_before > 0 ? Math.round((count / rows_before) * 100) : 0`, computed exactly in integers.
 */
module Report {

  datatype CleaningSummary = CleaningSummary(missingValues: int, invalidTypes: int, duplicatesRemoved: int)
  datatype Report = Report(rowsBefore: int, rowsAfter: int, summary: CleaningSummary)

  /** The numbers the report shows besides the raw counts. */
  datatype Figures = Figures(removed: int, removedPct: int, missingPct: int, invalidPct: int, duplicatesPct: int)

  /** JavaScript's `Math.round`: the nearest integer, halves rounded towards +infinity. */
  function MathRound(x: real): int {
    (x + 0.5).Floor
  }

  /** `round(100 * count / rowsBefore)` in integer arithmetic (Euclidean division by a positive divisor floors). */
  function RoundedPercent(count: int, rowsBefore: int): int
    requires rowsBefore > 0
  {
    (200 * count + rowsBefore) / (2 * rowsBefore)
  }

  lemma RoundedPercentIsMathRound(count: int, rowsBefore: int)
    requires rowsBefore > 0
    ensures RoundedPercent(count, rowsBefore) == MathRound((count as real / rowsBefore as real) * 100.0)
  {
    var d := rowsBefore;
    var m := 200 * count + d;
    var q := m / (2 * d);
    assert 2 * d * q <= m < 2 * d * q + 2 * d;
    var x := (count as real / d as real) * 100.0 + 0.5;
    var t := (2 * d) as real;
    assert x * t == m as real;
    assert q as real * t <= m as real;
    assert m as real < (q as real + 1.0) * t;
    if q as real > x {
      ScaleStrict(x, q as real, t);
    }
    if x >= q as real + 1.0 {
      ScaleWeak(q as real + 1.0, x, t);
    }
  }

  lemma ScaleStrict(a: real, b: real, t: real)
    requires t > 0.0 && a < b
    ensures a * t < b * t
  {
  }

  lemma ScaleWeak(a: real, b: real, t: real)
    requires t > 0.0 && a <= b
    ensures a * t <= b * t
  {
  }

  lemma ScaleInt(a: int, b: int, t: int)
    requires t > 0 && a <= b
    ensures a * t <= b * t
  {
  }

  /** One cell of the report: the guarded, rounded share of `rowsBefore` that `count` represents. */
  function Percentage(count: int, rowsBefore: int): (p: int)
    ensures rowsBefore <= 0 ==> p == 0
    ensures rowsBefore > 0 ==> p == MathRound((count as real / rowsBefore as real) * 100.0)
  {
    if rowsBefore > 0 then
      RoundedPercentIsMathRound(count, rowsBefore);
      RoundedPercent(count, rowsBefore)
    else 0
  }

  /** The rows the cleaning removed, shown as `rows_before - rows_after` without clamping. */
  function RemovedCount(r: Report): (removed: int)
    ensures r.rowsAfter + removed == r.rowsBefore
    ensures removed < 0 <==> r.rowsAfter > r.rowsBefore
  {
    r.rowsBefore - r.rowsAfter
  }

  /** The removed count and the four percentages, all guarded by the same `rows_before > 0`. */
  function ReportFigures(r: Report): (f: Figures)
    ensures f.removed == r.rowsBefore - r.rowsAfter
    ensures r.rowsBefore <= 0 ==> f.removedPct == 0 && f.missingPct == 0 && f.invalidPct == 0 && f.duplicatesPct == 0
    ensures r.rowsBefore > 0 ==> f.removedPct == MathRound(((r.rowsBefore - r.rowsAfter) as real / r.rowsBefore as real) * 100.0)
    ensures r.rowsBefore > 0 ==> f.missingPct == MathRound((r.summary.missingValues as real / r.rowsBefore as real) * 100.0)
    ensures r.rowsBefore > 0 ==> f.invalidPct == MathRound((r.summary.invalidTypes as real / r.rowsBefore as real) * 100.0)
    ensures r.rowsBefore > 0 ==> f.duplicatesPct == MathRound((r.summary.duplicatesRemoved as real / r.rowsBefore as real) * 100.0)
  {
    Figures(
      RemovedCount(r),
      Percentage(RemovedCount(r), r.rowsBefore),
      Percentage(r.summary.missingValues, r.rowsBefore),
      Percentage(r.summary.invalidTypes, r.rowsBefore),
      Percentage(r.summary.duplicatesRemoved, r.rowsBefore))
  }

  /** A count between 0 and `rowsBefore` gives a percentage between 0 and 100. */
  lemma PercentageInRange(count: int, rowsBefore: int)
    requires rowsBefore > 0 && 0 <= count <= rowsBefore
    ensures 0 <= Percentage(count, rowsBefore) <= 100
  {
    var d := rowsBefore;
    var m := 200 * count + d;
    var q := m / (2 * d);
    assert q * (2 * d) <= m < q * (2 * d) + 2 * d;
    assert d <= m <= 201 * d;
    if q > 100 {
      ScaleInt(101, q, 2 * d);
    }
    if q < 0 {
      ScaleInt(q, -1, 2 * d);
    }
  }

  /** Removing every row shows 100%. */
  lemma AllRowsIsHundred(rowsBefore: int)
    requires rowsBefore > 0
    ensures Percentage(rowsBefore, rowsBefore) == 100
  {
    var d := rowsBefore;
    assert 2 * d * 100 <= 201 * d < 2 * d * 101;
    assert (200 * d + d) / (2 * d) == 100;
  }

  /** Nothing is clamped: more rows after than before gives a negative count and a percentage <= 0. */
  lemma NoClamping(r: Report)
    requires r.rowsAfter > r.rowsBefore
    ensures ReportFigures(r).removed < 0
    ensures ReportFigures(r).removedPct <= 0
  {
    if r.rowsBefore > 0 {
      var d := r.rowsBefore;
      var m := 200 * RemovedCount(r) + d;
      var q := m / (2 * d);
      assert q * (2 * d) <= m;
      assert m < 2 * d;
      if q > 0 {
        ScaleInt(1, q, 2 * d);
      }
    }
  }

  /** When every count lies between 0 and `rowsBefore`, all four percentages lie between 0 and 100. */
  lemma FiguresInRange(r: Report)
    requires r.rowsBefore > 0 && 0 <= r.rowsAfter <= r.rowsBefore
    requires 0 <= r.summary.missingValues <= r.rowsBefore
    requires 0 <= r.summary.invalidTypes <= r.rowsBefore
    requires 0 <= r.summary.duplicatesRemoved <= r.rowsBefore
    ensures var f := ReportFigures(r);
      && 0 <= f.removed <= r.rowsBefore
      && 0 <= f.removedPct <= 100 && 0 <= f.missingPct <= 100
      && 0 <= f.invalidPct <= 100 && 0 <= f.duplicatesPct <= 100
  {
    PercentageInRange(RemovedCount(r), r.rowsBefore);
    PercentageInRange(r.summary.missingValues, r.rowsBefore);
    PercentageInRange(r.summary.invalidTypes, r.rowsBefore);
    PercentageInRange(r.summary.duplicatesRemoved, r.rowsBefore);
  }

  /** An empty or nonsensical row count shows 0% everywhere, whatever the counts. */
  lemma NoRowsShowsZero(r: Report)
    requires r.rowsBefore <= 0
    ensures var f := ReportFigures(r);
      f.removedPct == 0 && f.missingPct == 0 && f.invalidPct == 0 && f.duplicatesPct == 0
  {
  }

  /** 100 rows before and 80 after: 20 removed, 20%. */
  lemma EightyOfHundred(summary: CleaningSummary)
    ensures ReportFigures(Report(100, 80, summary)).removed == 20
    ensures ReportFigures(Report(100, 80, summary)).removedPct == 20
  {
    assert RoundedPercent(20, 100) == 4100 / 200 == 20;
  }
}
