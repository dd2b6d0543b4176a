/** Clustering scores, each with the range used to rescale it into [0, 1]. */
module Models {
  import opened Outcomes

  datatype Range = Range(lo: real, hi: real)

  function Width(r: Range): real {
    r.hi - r.lo
  }

  /** name is the metric's label. */
  datatype Metric = Metric(name: string, value: real, range: Range)

  /** The three metric classes with their default ranges. */
  function RandScore(value: real): Metric {
    Metric("Rand Score", value, Range(0.0, 1.0))
  }

  function AdjustedRandScore(value: real): Metric {
    Metric("Adjusted Rand Score", value, Range(-0.5, 1.0))
  }

  function NormalizedMutualInfoScore(value: real): Metric {
    Metric("Normalized Mutual Info Score", value, Range(0.0, 1.0))
  }

  /** Metric.normalized_value: (value - lo) / (hi - lo). Python raises
      ZeroDivisionError when the range is empty. */
  function NormalizedValue(m: Metric): (r: Result<real>)
    ensures r.Err? <==> m.range.lo == m.range.hi
    ensures r.Err? ==> r.error == ZeroDivisionError
    ensures r.Ok? ==> m.range.lo + r.value * Width(m.range) == m.value
  {
    if m.range.hi == m.range.lo then Err(ZeroDivisionError)
    else Ok((m.value - m.range.lo) / (m.range.hi - m.range.lo))
  }

  /** The rescaling sends lo to 0 and hi to 1. */
  lemma NormalizedValueAtBounds(name: string, rng: Range)
    requires rng.lo < rng.hi
    ensures NormalizedValue(Metric(name, rng.lo, rng)) == Ok(0.0)
    ensures NormalizedValue(Metric(name, rng.hi, rng)) == Ok(1.0)
  {
    var d := rng.hi - rng.lo;
    assert d / d == 1.0;
  }

  /** For a non-empty range the rescaling is strictly increasing and keeps [lo, hi]
      inside [0, 1]. */
  lemma NormalizedValueMonotone(name: string, rng: Range, v: real, w: real)
    requires rng.lo < rng.hi && v < w
    ensures NormalizedValue(Metric(name, v, rng)).value < NormalizedValue(Metric(name, w, rng)).value
    ensures rng.lo <= v && w <= rng.hi ==>
              0.0 <= NormalizedValue(Metric(name, v, rng)).value &&
              NormalizedValue(Metric(name, w, rng)).value <= 1.0
  {
    var d := rng.hi - rng.lo;
    DivMonotone(v - rng.lo, w - rng.lo, d);
    DivMonotone(0.0, v - rng.lo, d);
    DivMonotone(w - rng.lo, d, d);
    assert d / d == 1.0;
  }

  lemma DivMonotone(a: real, b: real, d: real)
    requires d > 0.0
    ensures a < b ==> a / d < b / d
    ensures a <= b ==> a / d <= b / d
  {
  }

  /** Rand and NMI scores live in [0, 1] already: normalising leaves them as they are. */
  lemma UnitRangeScoresUnchanged(v: real)
    ensures NormalizedValue(RandScore(v)) == Ok(v)
    ensures NormalizedValue(NormalizedMutualInfoScore(v)) == Ok(v)
  {
  }

  lemma AdjustedRandNormalized(v: real)
    ensures NormalizedValue(AdjustedRandScore(v)) == Ok((v + 0.5) / 1.5)
  {
    assert v - (-0.5) == v + 0.5 && 1.0 - (-0.5) == 1.5;
  }

  /** Metrics: a bundle of the three scores under a title (the source's label), in this field order. */
  datatype Metrics = Metrics(title: string, randScore: Metric, adjustedRandScore: Metric,
                             normalizedMutualInfoScore: Metric)

  function Fields(ms: Metrics): seq<(string, Metric)> {
    [("rand_score", ms.randScore),
     ("adjusted_rand_score", ms.adjustedRandScore),
     ("normalized_mutual_info_score", ms.normalizedMutualInfoScore)]
  }

  /** The bar heights Metrics.plot computes from model_dump() without the label:
      one (field, rescaled value) pair per score, in field order. */
  function PlotValues(ms: Metrics): (r: Result<seq<(string, real)>>)
    ensures r.Ok? <==> forall i :: 0 <= i < 3 ==> NormalizedValue(Fields(ms)[i].1).Ok?
    ensures r.Ok? ==> |r.value| == 3 && forall i :: 0 <= i < 3 ==>
              r.value[i] == (Fields(ms)[i].0, NormalizedValue(Fields(ms)[i].1).value)
  {
    var fs := Fields(ms);
    if exists i :: 0 <= i < 3 && fs[i].1.range.hi == fs[i].1.range.lo then Err(ZeroDivisionError)
    else
      Ok(seq(3, i requires 0 <= i < 3 =>
        (fs[i].0, (fs[i].1.value - fs[i].1.range.lo) / (fs[i].1.range.hi - fs[i].1.range.lo))))
  }

  function Ranges(ms: Metrics): seq<Range> {
    [ms.randScore.range, ms.adjustedRandScore.range, ms.normalizedMutualInfoScore.range]
  }

  /** Position k holds the first range of greatest width: the head of the list after a
      stable sort by width, widest first. */
  predicate IsFirstWidest(rs: seq<Range>, k: nat) {
    k < |rs| &&
    (forall j :: 0 <= j < |rs| ==> Width(rs[j]) <= Width(rs[k])) &&
    (forall j :: 0 <= j < k ==> Width(rs[j]) < Width(rs[k]))
  }

  /** ranges.sort(key=width, reverse=True); ranges[0]: the y-axis range of the plot. */
  method PlotRange(ms: Metrics) returns (widest: Range)
    ensures exists k: nat :: IsFirstWidest(Ranges(ms), k) && widest == Ranges(ms)[k]
  {
    var ranges := Ranges(ms);
    var best := 0;
    var i := 1;
    while i < |ranges|
      invariant 1 <= i <= |ranges| && best < i
      invariant forall j :: 0 <= j < i ==> Width(ranges[j]) <= Width(ranges[best])
      invariant forall j :: 0 <= j < best ==> Width(ranges[j]) < Width(ranges[best])
    {
      if Width(ranges[i]) > Width(ranges[best]) {
        best := i;
      }
      i := i + 1;
    }
    widest := ranges[best];
  }

  /** With the default ranges the adjusted Rand range (-0.5, 1) is the widest. */
  lemma DefaultPlotRange(title: string, a: real, b: real, c: real, k: nat)
    requires IsFirstWidest(Ranges(Metrics(title, RandScore(a), AdjustedRandScore(b),
                                          NormalizedMutualInfoScore(c))), k)
    ensures k == 1
    ensures Ranges(Metrics(title, RandScore(a), AdjustedRandScore(b),
                           NormalizedMutualInfoScore(c)))[k] == Range(-0.5, 1.0)
  {
    var rs := Ranges(Metrics(title, RandScore(a), AdjustedRandScore(b), NormalizedMutualInfoScore(c)));
    assert Width(rs[0]) == 1.0 && Width(rs[1]) == 1.5 && Width(rs[2]) == 1.0;
    assert Width(rs[1]) <= Width(rs[k]);
  }
}
