/** The relabelling the miRNA and mRNA loaders apply after transposing: every
    index label is cut to its first 12 characters (the TCGA patient barcode). */
module DataHandling {
  import opened Frames

  const PatientBarcodeLength: nat := 12

  /** The first min(12, |x|) characters of x. */
  function Truncate(x: string): (y: string)
    ensures |y| == if |x| < PatientBarcodeLength then |x| else PatientBarcodeLength
    ensures y <= x
  {
    if |x| <= PatientBarcodeLength then x else x[..PatientBarcodeLength]
  }

  lemma TruncateIdempotent(x: string)
    ensures Truncate(Truncate(x)) == Truncate(x)
    ensures |x| <= PatientBarcodeLength ==> Truncate(x) == x
  {
  }

  /** The sample barcodes of one patient collapse onto one label; nothing deduplicates them. */
  lemma TruncateMerges()
    ensures Truncate("TCGA-AA-0001-01A") == "TCGA-AA-0001"
    ensures Truncate("TCGA-AA-0001-11A") == "TCGA-AA-0001"
  {
  }

  function RenameRow(r: Row): Row {
    Row(Truncate(r.id), r.cells)
  }

  /** Every row label of a table cut to at most its first 12 characters; cells and
      row order stay. */
  function TruncateIndex(t: Table): (u: Table)
    ensures u.columns == t.columns
    ensures |u.rows| == |t.rows|
    ensures forall i :: 0 <= i < |t.rows| ==>
              u.rows[i].cells == t.rows[i].cells && u.rows[i].id == Truncate(t.rows[i].id)
  {
    var rows := seq(|t.rows|, i requires 0 <= i < |t.rows| => RenameRow(t.rows[i]));
    Frame(t.columns, rows)
  }

  /** Relabelling twice is relabelling once. */
  lemma TruncateIndexIdempotent(t: Table)
    ensures TruncateIndex(TruncateIndex(t)) == TruncateIndex(t)
  {
    var u := TruncateIndex(t);
    forall i | 0 <= i < |t.rows|
      ensures TruncateIndex(u).rows[i] == u.rows[i]
    {
      TruncateIdempotent(t.rows[i].id);
    }
  }

  /** Two rows of one patient end up with the same label: the index stops being unique. */
  lemma TruncateIndexCollides(a: Row, b: Row)
    requires a.id == "TCGA-AA-0001-01A" && b.id == "TCGA-AA-0001-11A"
    requires |a.cells| == 0 && |b.cells| == 0
    ensures var u := TruncateIndex(Frame([], [a, b]));
            |u.rows| == 2 && u.rows[0].id == u.rows[1].id && a.id != b.id
  {
    TruncateMerges();
  }
}
