/** The TCGA barcode helpers of the data loaders. A TCGA sample barcode such as
    "TCGA-AA-0001-01A" carries the sample-type code at 0-based offsets 13 and 14;
    code "01" means primary solid tumour. */
module DataLoaders {
  import opened Seqs

  /** The sample-type code: the slice barcode[13:15] with Python's clamping, so a
      barcode shorter than 15 characters yields a shorter, possibly empty, code. */
  function TumorSample(barcode: string): (code: string)
    ensures |code| == if |barcode| >= 15 then 2 else if |barcode| > 13 then |barcode| - 13 else 0
    ensures forall i :: 0 <= i < |code| ==> code[i] == barcode[13 + i]
  {
    if |barcode| >= 15 then barcode[13..15]
    else if |barcode| > 13 then barcode[13..]
    else ""
  }

  predicate IsPrimaryTumor(barcode: string) {
    TumorSample(barcode) == "01"
  }

  /** A barcode is primary exactly when it is long enough and has '0','1' at offsets 13, 14. */
  lemma IsPrimaryTumorIff(barcode: string)
    ensures IsPrimaryTumor(barcode) <==> |barcode| >= 15 && barcode[13] == '0' && barcode[14] == '1'
  {
    if |barcode| >= 15 && barcode[13] == '0' && barcode[14] == '1' {
      assert TumorSample(barcode) == ['0', '1'];
    }
  }

  lemma ExampleBarcode()
    ensures TumorSample("TCGA-AA-0001-01A") == "01"
    ensures IsPrimaryTumor("TCGA-AA-0001-01A")
    ensures !IsPrimaryTumor("TCGA-AA-0001-11A")
  {
    IsPrimaryTumorIff("TCGA-AA-0001-11A");
  }

  /** The barcodes naming primary tumours, in their original order, duplicates included. */
  function RetainMainTumors(barcodes: seq<string>): (kept: seq<string>)
    ensures IsSubsequence(kept, barcodes)
    ensures forall b :: multiset(kept)[b] == if IsPrimaryTumor(b) then multiset(barcodes)[b] else 0
  {
    FilterSpec(barcodes, IsPrimaryTumor);
    Filter(barcodes, IsPrimaryTumor)
  }

  lemma RetainMainTumorsIdempotent(barcodes: seq<string>)
    ensures RetainMainTumors(RetainMainTumors(barcodes)) == RetainMainTumors(barcodes)
    ensures |RetainMainTumors(barcodes)| <= |barcodes|
  {
    FilterIdempotent(barcodes, IsPrimaryTumor);
  }

  lemma RetainMainTumorsConcat(a: seq<string>, b: seq<string>)
    ensures RetainMainTumors(a + b) == RetainMainTumors(a) + RetainMainTumors(b)
  {
    FilterConcat(a, b, IsPrimaryTumor);
  }
}
