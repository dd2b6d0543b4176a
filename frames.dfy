/** The tabular data the pipeline works on: a pandas DataFrame abstracted as a
    list of column labels and an ordered list of labelled rows. */
module Frames {
  import opened Seqs
  import opened Outcomes

  /** One cell of a frame; Missing is what pandas reports as NaN or None. */
  datatype Cell = Missing | Text(text: string) | Number(number: real)

  /** A row: its index label (the sample identifier) and one cell per column. */
  datatype Row = Row(id: string, cells: seq<Cell>)

  datatype Frame = Frame(columns: seq<string>, rows: seq<Row>)

  predicate Rectangular(f: Frame) {
    forall r :: r in f.rows ==> |r.cells| == |f.columns|
  }

  /** A frame in which every row has exactly one cell per column. */
  type Table = f: Frame | Rectangular(f) witness Frame([], [])

  function RowId(r: Row): string { r.id }

  /** The index of a table, in row order. */
  function Ids(t: Table): seq<string> {
    Project(t.rows, RowId)
  }

  /** The first row labelled id, if any: no earlier row carries that label. */
  function FindRow(rows: seq<Row>, id: string): (r: Option<Row>)
    ensures r.Some? <==> exists i :: 0 <= i < |rows| && rows[i].id == id
    ensures r.Some? ==> r.value in rows && r.value.id == id
    ensures r.Some? ==> exists i :: 0 <= i < |rows| && rows[i] == r.value && r.value.id == id &&
                                    forall j :: 0 <= j < i ==> rows[j].id != id
  {
    if rows == [] then None
    else if rows[0].id == id then Some(rows[0])
    else
      var r := FindRow(rows[1..], id);
      assert forall i :: 1 <= i < |rows| ==> rows[i] == rows[1..][i - 1];
      if r.Some? then
        var i :| 0 <= i < |rows[1..]| && rows[1..][i] == r.value && r.value.id == id &&
                 forall j :: 0 <= j < i ==> rows[1..][j].id != id;
        assert rows[i + 1] == r.value;
        r
      else r
  }
}
