/** The modelled pipeline steps: the abstract base step, the main-tumour row
    filter, the FFPE row filter and the inner-join intersection of several
    tables. The external steps are parameters (the Externals fields). */
module PipelineSteps {
  import opened Outcomes
  import opened Seqs
  import opened Frames
  import DataLoaders

  // ---------------------------------------------------------------------------
  // RetainMainTumors: rows whose label matches ^TCGA-[A-Z0-9]{2}-[A-Z0-9]{4}-01
  // ---------------------------------------------------------------------------

  /** One position of an anchored, fixed-width regular expression. */
  datatype CharClass = Literal(c: char) | UpperOrDigit

  predicate Accepts(k: CharClass, c: char) {
    match k
    case Literal(l) => c == l
    case UpperOrDigit => 'A' <= c <= 'Z' || '0' <= c <= '9'
  }

  /** ^TCGA-[A-Z0-9]{2}-[A-Z0-9]{4}-01, one entry per matched character. */
  const MainTumorPattern: seq<CharClass> :=
    [Literal('T'), Literal('C'), Literal('G'), Literal('A'), Literal('-'),
     UpperOrDigit, UpperOrDigit, Literal('-'),
     UpperOrDigit, UpperOrDigit, UpperOrDigit, UpperOrDigit, Literal('-'),
     Literal('0'), Literal('1')]

  /** re.search with a pattern anchored by ^ only: s starts with a match, anything may follow. */
  predicate MatchesAtStart(pattern: seq<CharClass>, s: string) {
    |s| >= |pattern| && forall i :: 0 <= i < |pattern| ==> Accepts(pattern[i], s[i])
  }

  predicate IsMainTumorId(id: string) {
    MatchesAtStart(MainTumorPattern, id)
  }

  /** Every label the regular expression keeps is a primary-tumour barcode. */
  lemma MainTumorIdIsPrimary(id: string)
    requires IsMainTumorId(id)
    ensures |id| >= 15 && DataLoaders.IsPrimaryTumor(id)
  {
    assert Accepts(MainTumorPattern[13], id[13]) && Accepts(MainTumorPattern[14], id[14]);
    DataLoaders.IsPrimaryTumorIff(id);
  }

  /** The converse fails: the slice test ignores the TCGA prefix shape. */
  lemma PrimaryIsNotAlwaysMainTumorId()
    ensures DataLoaders.IsPrimaryTumor("XXXX-AA-0001-01A")
    ensures !IsMainTumorId("XXXX-AA-0001-01A")
    ensures DataLoaders.IsPrimaryTumor("tcga-aa-0001-01A")
    ensures !IsMainTumorId("tcga-aa-0001-01A")
  {
    DataLoaders.IsPrimaryTumorIff("XXXX-AA-0001-01A");
    DataLoaders.IsPrimaryTumorIff("tcga-aa-0001-01A");
    assert !Accepts(MainTumorPattern[0], "XXXX-AA-0001-01A"[0]);
    assert !Accepts(MainTumorPattern[0], "tcga-aa-0001-01A"[0]);
  }

  lemma ExampleMainTumorIds()
    ensures IsMainTumorId("TCGA-AA-0001-01A")
    ensures IsMainTumorId("TCGA-AA-0001-01")
    ensures !IsMainTumorId("TCGA-AA-0001-11A")
    ensures !IsMainTumorId("TCGA-AA-0001-0")
  {
    assert !Accepts(MainTumorPattern[13], "TCGA-AA-0001-11A"[13]);
  }

  predicate RowIsMainTumor(r: Row) {
    IsMainTumorId(r.id)
  }

  /** data.filter(regex=..., axis=0): the rows with a matching label, same order, same columns. */
  function MainTumorRows(t: Table): (u: Table)
    ensures u.columns == t.columns
    ensures IsSubsequence(u.rows, t.rows)
    ensures forall r :: multiset(u.rows)[r] == if IsMainTumorId(r.id) then multiset(t.rows)[r] else 0
  {
    FilterSpec(t.rows, RowIsMainTumor);
    Frame(t.columns, Filter(t.rows, RowIsMainTumor))
  }

  lemma MainTumorRowsIdempotent(t: Table)
    ensures MainTumorRows(MainTumorRows(t)) == MainTumorRows(t)
  {
    FilterIdempotent(t.rows, RowIsMainTumor);
  }

  /** The labels kept by the table step are those kept by the barcode-list filter,
      further restricted to the TCGA prefix shape; in particular all are primary. */
  lemma MainTumorRowsIds(t: Table)
    ensures Ids(MainTumorRows(t)) == Filter(DataLoaders.RetainMainTumors(Ids(t)), IsMainTumorId)
    ensures forall id :: id in Ids(MainTumorRows(t)) ==> DataLoaders.IsPrimaryTumor(id)
  {
    FilterProject(t.rows, RowId, RowIsMainTumor, IsMainTumorId);
    forall id | IsMainTumorId(id) ensures DataLoaders.IsPrimaryTumor(id) {
      MainTumorIdIsPrimary(id);
    }
    FilterNarrows(Ids(t), IsMainTumorId, DataLoaders.IsPrimaryTumor);
  }

  // ---------------------------------------------------------------------------
  // RemoveFFPESamples: rows whose is_ffpe value equals 'NO'
  // ---------------------------------------------------------------------------

  const FfpeColumn: string := "patient.samples.sample.2.is_ffpe"

  /** Position of the first column labelled name. */
  function IndexOf(columns: seq<string>, name: string): (j: Option<nat>)
    ensures j.Some? <==> name in columns
    ensures j.Some? ==> j.value < |columns| && columns[j.value] == name &&
                        name !in columns[..j.value]
  {
    if columns == [] then None
    else if columns[0] == name then Some(0)
    else match IndexOf(columns[1..], name)
      case None => None
      case Some(j) =>
        assert columns[..j + 1] == [columns[0]] + columns[1..][..j];
        Some(j + 1)
  }

  function Occurrences(columns: seq<string>, name: string): nat {
    multiset(columns)[name]
  }

  /** The cell of row r under the column labelled name, if that column exists. */
  function CellUnder(columns: seq<string>, r: Row, name: string): Option<Cell> {
    match IndexOf(columns, name)
    case None => None
    case Some(j) => if j < |r.cells| then Some(r.cells[j]) else None
  }

  predicate IsNotFfpe(columns: seq<string>, r: Row) {
    CellUnder(columns, r, FfpeColumn) == Some(Text("NO"))
  }

  /** The rows whose FFPE flag cell is exactly the text "NO"; a KeyError without
      that column. */
  function RemoveFfpeRows(t: Table): (r: Result<Table>)
    ensures r.Err? <==> Occurrences(t.columns, FfpeColumn) != 1
    ensures r.Err? ==> r.error == if FfpeColumn in t.columns then AmbiguousColumn else KeyError
    ensures r.Ok? ==> r.value.columns == t.columns && IsSubsequence(r.value.rows, t.rows)
    ensures r.Ok? ==> forall row :: multiset(r.value.rows)[row] ==
                        if IsNotFfpe(t.columns, row) then multiset(t.rows)[row] else 0
  {
    if FfpeColumn !in t.columns then Err(KeyError)
    else if Occurrences(t.columns, FfpeColumn) > 1 then Err(AmbiguousColumn)
    else
      var keep := (row: Row) => IsNotFfpe(t.columns, row);
      FilterSpec(t.rows, keep);
      Ok(Frame(t.columns, Filter(t.rows, keep)))
  }

  /** The comparison is exact: a lower-case "no", any other text, a number or a
      missing value all drop the row. */
  lemma RemoveFfpeIsCaseSensitive(t: Table, row: Row)
    requires Occurrences(t.columns, FfpeColumn) == 1
    requires CellUnder(t.columns, row, FfpeColumn) in {Some(Text("no")), Some(Missing), Some(Text("YES"))}
    ensures row !in RemoveFfpeRows(t).value.rows
  {
  }

  // ---------------------------------------------------------------------------
  // IntersectDataframes: the inner join of the tables on their row labels,
  // columns side by side
  // ---------------------------------------------------------------------------

  /** id labels a row of every table. */
  predicate InAll(id: string, ts: seq<Table>) {
    forall k :: 0 <= k < |ts| ==> id in Ids(ts[k])
  }

  function ColumnLists(ts: seq<Table>): (cs: seq<seq<string>>)
    ensures |cs| == |ts| && forall k :: 0 <= k < |ts| ==> cs[k] == ts[k].columns
  {
    seq(|ts|, k requires 0 <= k < |ts| => ts[k].columns)
  }

  /** The columns of all tables, side by side, in input order. */
  function AllColumns(ts: seq<Table>): seq<string> {
    Concat(ColumnLists(ts))
  }

  /** Offset of the first column contributed by table k. */
  function ColumnOffset(ts: seq<Table>, k: nat): nat
    requires k <= |ts|
  {
    |Concat(ColumnLists(ts)[..k])|
  }

  function RowOf(t: Table, id: string): (r: Row)
    requires id in Ids(t)
    ensures r in t.rows && r.id == id && |r.cells| == |t.columns|
  {
    assert exists i :: 0 <= i < |t.rows| && t.rows[i].id == id by {
      var i :| 0 <= i < |Ids(t)| && Ids(t)[i] == id;
    }
    FindRow(t.rows, id).value
  }

  /** For each table, the cells of its row labelled id. */
  function CellLists(ts: seq<Table>, id: string): (cs: seq<seq<Cell>>)
    requires InAll(id, ts)
    ensures |cs| == |ts| && forall k :: 0 <= k < |ts| ==> cs[k] == RowOf(ts[k], id).cells
  {
    seq(|ts|, k requires 0 <= k < |ts| => RowOf(ts[k], id).cells)
  }

  /** The cells of the row labelled id in every table, side by side. */
  function JoinedCells(ts: seq<Table>, id: string): (cells: seq<Cell>)
    requires InAll(id, ts)
    ensures |cells| == |AllColumns(ts)|
  {
    ConcatSameShape(CellLists(ts, id), ColumnLists(ts));
    Concat(CellLists(ts, id))
  }

  function InAllOf(ts: seq<Table>): string -> bool {
    (id: string) => InAll(id, ts)
  }

  /** The row join of several tables on the labels of the first, in its order. */
  function Join(ts: seq<Table>): (u: Table)
    requires |ts| >= 1
  {
    var ids := Filter(Ids(ts[0]), InAllOf(ts));
    var rows := seq(|ids|, i requires 0 <= i < |ids| =>
      assert ids[i] in ids; Row(ids[i], JoinedCells(ts, ids[i])));
    Frame(AllColumns(ts), rows)
  }

  function Intersect(ts: seq<Table>): (r: Result<Table>)
    ensures r.Err? <==> |ts| == 0 || (|ts| >= 2 && exists k :: 0 <= k < |ts| && !Distinct(Ids(ts[k])))
    ensures |ts| == 0 ==> r == Err(ValueError)
    ensures r.Err? && |ts| > 0 ==> r.error == InvalidIndexError
    ensures |ts| == 1 ==> r == Ok(ts[0])
    ensures r.Ok? ==> r.value.columns == AllColumns(ts)
    ensures r.Ok? ==> forall id :: id in Ids(r.value) <==> InAll(id, ts)
    ensures r.Ok? ==> IsSubsequence(Ids(r.value), Ids(ts[0]))
  {
    if |ts| == 0 then Err(ValueError)
    else if |ts| == 1 then
      assert ColumnLists(ts) == [ts[0].columns];
      assert Concat([ts[0].columns]) == ts[0].columns + Concat([]);
      SubsequenceReflexive(Ids(ts[0]));
      Ok(ts[0])
    else if exists k :: 0 <= k < |ts| && !Distinct(Ids(ts[k])) then Err(InvalidIndexError)
    else
      var u := Join(ts);
      JoinIds(ts);
      FilterSpec(Ids(ts[0]), InAllOf(ts));
      Ok(u)
  }

  lemma JoinIds(ts: seq<Table>)
    requires |ts| >= 1
    ensures Ids(Join(ts)) == Filter(Ids(ts[0]), InAllOf(ts))
  {
  }

  /** With at least two inputs the result has no repeated label and is no longer
      than any input. */
  lemma IntersectRows(ts: seq<Table>)
    requires |ts| >= 2 && Intersect(ts).Ok?
    ensures Distinct(Ids(Intersect(ts).value))
    ensures forall k :: 0 <= k < |ts| ==> |Intersect(ts).value.rows| <= |ts[k].rows|
  {
    assert Intersect(ts) == Ok(Join(ts));
    var u := Join(ts);
    assert Distinct(Ids(ts[0]));
    JoinIds(ts);
    FilterDistinct(Ids(ts[0]), InAllOf(ts));
    forall k | 0 <= k < |ts| ensures |u.rows| <= |ts[k].rows| {
      assert forall id :: id in Ids(u) ==> id in Ids(ts[k]);
      DistinctSubsetShorter(Ids(u), Ids(ts[k]));
    }
  }

  /** Each joined row holds, at the offset of table k, exactly the cells of the
      row with the same label in table k. */
  lemma IntersectCells(ts: seq<Table>, i: nat, k: nat)
    requires |ts| >= 2 && Intersect(ts).Ok?
    requires i < |Intersect(ts).value.rows| && k < |ts|
    ensures var row := Intersect(ts).value.rows[i];
            ColumnOffset(ts, k) + |ts[k].columns| <= |row.cells| &&
            row.id in Ids(ts[k]) &&
            row.cells[ColumnOffset(ts, k)..ColumnOffset(ts, k) + |ts[k].columns|] == RowOf(ts[k], row.id).cells
  {
    var row := Intersect(ts).value.rows[i];
    assert row.id in Ids(Intersect(ts).value);
    assert row == Row(row.id, JoinedCells(ts, row.id));
    JoinedCellsSegment(ts, row.id, k);
  }

  lemma JoinedCellsSegment(ts: seq<Table>, id: string, k: nat)
    requires InAll(id, ts) && k < |ts|
    ensures ColumnOffset(ts, k) + |ts[k].columns| <= |JoinedCells(ts, id)|
    ensures JoinedCells(ts, id)[ColumnOffset(ts, k)..ColumnOffset(ts, k) + |ts[k].columns|] == RowOf(ts[k], id).cells
  {
    var pieces := CellLists(ts, id);
    var cols := ColumnLists(ts);
    ConcatPiece(pieces, k);
    forall i | 0 <= i < k
      ensures |pieces[..k][i]| == |cols[..k][i]|
    {
      assert pieces[..k][i] == RowOf(ts[i], id).cells && cols[..k][i] == ts[i].columns;
    }
    ConcatSameShape(pieces[..k], cols[..k]);
    assert ColumnOffset(ts, k) == |Concat(pieces[..k])|;
  }

  // ---------------------------------------------------------------------------
  // PipelineStep: the value a step receives and returns, and the dispatch on the
  // step's class
  // ---------------------------------------------------------------------------

  /** What flows between steps: one table, a list of tables, or a value built by
      code outside this model (similarity matrices, a fitted clustering model). */
  datatype Value = One(table: Table) | Many(tables: seq<Table>) | Other(token: nat)

  /** The external steps, as uninterpreted functions: every statement about a
      pipeline holds for any choice of them. */
  datatype Externals = Externals(
    filterByNanPercentage: Value -> Result<Value>,
    filterByVariance: Value -> Result<Value>,
    truncateBarcode: Value -> Result<Value>,
    sortByIndex: Value -> Result<Value>,
    computeSnf: Value -> Result<Value>,
    computeKMedoids: Value -> Result<Value>)

  /** One constructor per step class. */
  datatype Step =
    | PipelineStep
    | RetainMainTumors
    | RemoveFFPESamples
    | IntersectDataframes
    | FilterByNanPercentage
    | FilterByVariance
    | TruncateBarcode
    | SortByIndex
    | ComputeSNF
    | ComputeKMedoids

  /** A step's table result as a Value; an exception passes through unchanged. */
  function AsOne(r: Result<Table>): (o: Result<Value>)
    ensures o.Ok? <==> r.Ok?
    ensures r.Ok? ==> o.value == One(r.value)
    ensures r.Err? ==> o.error == r.error
  {
    match r
    case Ok(u) => Ok(One(u))
    case Err(e) => Err(e)
  }

  /** step(data=v): the step class's _call on v. A modelled step applied to a value
      of the wrong kind fails the way the pandas call it makes fails; the external
      steps are the functions in ext. */
  function Call(ext: Externals, step: Step, v: Value): (r: Result<Value>)
    ensures step == PipelineStep ==> r == Err(NotImplementedError)
    ensures step == RetainMainTumors ==>
              r == if v.One? then Ok(One(MainTumorRows(v.table))) else Err(AttributeError)
    ensures step == RemoveFFPESamples ==>
              r == if v.One? then AsOne(RemoveFfpeRows(v.table)) else Err(TypeError)
    ensures step == IntersectDataframes ==>
              r == match v
                   case Many(ts) => AsOne(Intersect(ts))
                   case One(t) => if |t.columns| == 0 then Err(ValueError) else Err(TypeError)
                   case Other(_) => Err(TypeError)
    ensures step == FilterByNanPercentage ==> r == ext.filterByNanPercentage(v)
    ensures step == FilterByVariance ==> r == ext.filterByVariance(v)
    ensures step == TruncateBarcode ==> r == ext.truncateBarcode(v)
    ensures step == SortByIndex ==> r == ext.sortByIndex(v)
    ensures step == ComputeSNF ==> r == ext.computeSnf(v)
    ensures step == ComputeKMedoids ==> r == ext.computeKMedoids(v)
  {
    match step
    case PipelineStep => Err(NotImplementedError)
    case RetainMainTumors =>
      if v.One? then Ok(One(MainTumorRows(v.table))) else Err(AttributeError)
    case RemoveFFPESamples =>
      (match v
       case One(t) => AsOne(RemoveFfpeRows(t))
       case _ => Err(TypeError))
    case IntersectDataframes =>
      (match v
       case Many(ts) => AsOne(Intersect(ts))
       // list(frame) is its column labels: nothing to concatenate, or strings
       case One(t) => if |t.columns| == 0 then Err(ValueError) else Err(TypeError)
       case Other(_) => Err(TypeError))
    case FilterByNanPercentage => ext.filterByNanPercentage(v)
    case FilterByVariance => ext.filterByVariance(v)
    case TruncateBarcode => ext.truncateBarcode(v)
    case SortByIndex => ext.sortByIndex(v)
    case ComputeSNF => ext.computeSnf(v)
    case ComputeKMedoids => ext.computeKMedoids(v)
  }
}
