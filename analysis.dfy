/** Missing-value statistics of a table. */
module Analysis {
  import opened Frames

  datatype NanPercentage = NanPercentage(column: string, percentage: real)

  /** The cells of column j, top to bottom. */
  function Column(t: Table, j: nat): (cells: seq<Cell>)
    requires j < |t.columns|
    ensures |cells| == |t.rows|
    ensures forall i :: 0 <= i < |t.rows| ==> cells[i] == t.rows[i].cells[j]
  {
    seq(|t.rows|, i requires 0 <= i < |t.rows| => assert t.rows[i] in t.rows; t.rows[i].cells[j])
  }

  /** Number of missing cells (isna().sum() for one column). */
  function MissingCount(cells: seq<Cell>): (n: nat)
    ensures n <= |cells|
    ensures n == 0 <==> forall i :: 0 <= i < |cells| ==> cells[i] != Missing
    ensures n == |cells| <==> forall i :: 0 <= i < |cells| ==> cells[i] == Missing
    ensures n == multiset(cells)[Missing]
  {
    if cells == [] then 0
    else
      assert forall i :: 1 <= i < |cells| ==> cells[i] == cells[1..][i - 1];
      assert cells == [cells[0]] + cells[1..];
      (if cells[0] == Missing then 1 else 0) + MissingCount(cells[1..])
  }

  /** f is the share count/total: f parts of total make count. */
  predicate IsShare(f: real, count: nat, total: nat) {
    f * (total as real) == count as real
  }

  /** count / total as a real number. */
  function Fraction(count: nat, total: nat): (f: real)
    requires 0 < total && count <= total
    ensures IsShare(f, count, total)
    ensures 0.0 <= f <= 1.0
    ensures count == 0 ==> f == 0.0
    ensures count == total ==> f == 1.0
  {
    var f := count as real / total as real;
    assert f * (total as real) == count as real;
    assert f > 1.0 ==> f * (total as real) > 1.0 * (total as real);
    f
  }

  /** get_nan_percentage: one entry per column, in column order, labelled with the
      column's name and holding the fraction of that column's cells that are missing. */
  function NanPercentages(t: Table): (ps: seq<NanPercentage>)
    requires |t.rows| > 0
    ensures |ps| == |t.columns|
    ensures forall j :: 0 <= j < |ps| ==>
              ps[j].column == t.columns[j] &&
              IsShare(ps[j].percentage, MissingCount(Column(t, j)), |t.rows|) &&
              0.0 <= ps[j].percentage <= 1.0
  {
    seq(|t.columns|, j requires 0 <= j < |t.columns| =>
      NanPercentage(t.columns[j], Fraction(MissingCount(Column(t, j)), |t.rows|)))
  }

  /** A column without missing values scores 0, a column of missing values scores 1. */
  lemma NanPercentageExtremes(t: Table, j: nat)
    requires |t.rows| > 0 && j < |t.columns|
    ensures (forall i :: 0 <= i < |t.rows| ==> t.rows[i].cells[j] != Missing) ==>
              NanPercentages(t)[j].percentage == 0.0
    ensures (forall i :: 0 <= i < |t.rows| ==> t.rows[i].cells[j] == Missing) ==>
              NanPercentages(t)[j].percentage == 1.0
  {
    var col := Column(t, j);
    assert NanPercentages(t)[j].percentage == Fraction(MissingCount(col), |t.rows|);

  }
}
