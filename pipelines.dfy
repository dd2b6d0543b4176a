/** Pipelines: an ordered list of steps run one after the other, each on the
    previous step's output, and the step lists the concrete pipeline classes declare. */
module Pipelines {
  import opened Outcomes
  import opened Frames
  import opened PipelineSteps

  /** Run the steps in order from v; the first failing step ends the run with its error. */
  function Fold(ext: Externals, steps: seq<Step>, v: Value): Result<Value> {
    if steps == [] then Ok(v)
    else match Call(ext, steps[0], v)
      case Err(e) => Err(e)
      case Ok(w) => Fold(ext, steps[1..], w)
  }

  /** Pipeline.__call__: steps[0] on the input, then the remaining steps in turn. With no
      steps, steps[0] raises IndexError. */
  function RunSteps(ext: Externals, steps: seq<Step>, v: Value): Result<Value> {
    if steps == [] then Err(IndexError) else Fold(ext, steps, v)
  }

  /** Feed r, if it is a result, to the step; propagate an error unchanged. */
  function Then(ext: Externals, r: Result<Value>, step: Step): Result<Value> {
    match r
    case Err(e) => Err(e)
    case Ok(w) => Call(ext, step, w)
  }

  /** Continue a run with more steps, unless it has already failed. */
  function ThenAll(ext: Externals, r: Result<Value>, steps: seq<Step>): Result<Value> {
    match r
    case Err(e) => Err(e)
    case Ok(w) => Fold(ext, steps, w)
  }

  /** The fold can be extended one step at a time, as the loop of Pipeline.__call__ does. */
  lemma {:induction false} FoldSnoc(ext: Externals, steps: seq<Step>, last: Step, v: Value)
    ensures Fold(ext, steps + [last], v) == Then(ext, Fold(ext, steps, v), last)
  {
    if steps == [] {
      assert [] + [last] == [last];
    } else {
      assert (steps + [last])[1..] == steps[1..] + [last];
      match Call(ext, steps[0], v)
      case Err(e) =>
      case Ok(w) => FoldSnoc(ext, steps[1..], last, w);
    }
  }

  /** Running s ++ t is running t on the output of s; an error in s ends the run. */
  lemma {:induction false} FoldAppend(ext: Externals, s: seq<Step>, t: seq<Step>, v: Value)
    ensures Fold(ext, s + t, v) == ThenAll(ext, Fold(ext, s, v), t)
  {
    if s == [] {
      assert s + t == t;
    } else {
      assert (s + t)[1..] == s[1..] + t;
      match Call(ext, s[0], v)
      case Err(e) =>
      case Ok(w) => FoldAppend(ext, s[1..], t, w);
    }
  }

  /** Composition of pipelines with non-empty step lists. */
  lemma RunStepsAppend(ext: Externals, s: seq<Step>, t: seq<Step>, v: Value)
    requires s != [] && t != []
    ensures RunSteps(ext, s + t, v) ==
            match RunSteps(ext, s, v) case Err(e) => Err(e) case Ok(w) => RunSteps(ext, t, w)
  {
    FoldAppend(ext, s, t, v);
  }

  /** A failing step aborts the whole run with its error: no partial result survives. */
  lemma FailingStepAborts(ext: Externals, steps: seq<Step>, k: nat, v: Value, w: Value, e: Error)
    requires k < |steps|
    requires Fold(ext, steps[..k], v) == Ok(w)
    requires Call(ext, steps[k], w) == Err(e)
    ensures RunSteps(ext, steps, v) == Err(e)
  {
    assert steps == steps[..k] + ([steps[k]] + steps[k + 1..]);
    FoldAppend(ext, steps[..k], [steps[k]] + steps[k + 1..], v);
  }

  /** The concrete pipeline classes. The three omics pipelines and the subtype pipeline
      are ExperimentPipelines, which also carry a data type used for logging. */
  datatype PipelineKind =
    | PhenotypePipeline
    | MiRnaPipeline
    | MRnaPipeline
    | ProteinsPipeline
    | SubTypesPipeline
    | MultiDataframesPipeline
    | DownstreamPipeline

  /** The `data_type` class attribute, which only the experiment pipelines declare. */
  function DataType(kind: PipelineKind): Option<string>
  {
    match kind
    case MiRnaPipeline => Some("miRNA")
    case MRnaPipeline => Some("mRNA")
    case ProteinsPipeline => Some("Proteins")
    case SubTypesPipeline => Some("Subtypes")
    case _ => None
  }

  /** The class attribute `steps` of each pipeline class. */
  function DeclaredSteps(kind: PipelineKind): seq<Step> {
    match kind
    case PhenotypePipeline => [RemoveFFPESamples]
    case SubTypesPipeline => [RetainMainTumors, TruncateBarcode]
    case MultiDataframesPipeline => [IntersectDataframes, SortByIndex]
    case DownstreamPipeline => [ComputeSNF, ComputeKMedoids]
    case _ => [RetainMainTumors, FilterByNanPercentage, FilterByVariance, TruncateBarcode]
  }

  class Pipeline {
    const kind: PipelineKind
    var steps: seq<Step>

    constructor (kind: PipelineKind)
      ensures this.kind == kind && steps == DeclaredSteps(kind)
    {
      this.kind := kind;
      steps := DeclaredSteps(kind);
    }

    /** Assigning an instance attribute `steps`, which shadows the class's list. */
    method SetSteps(newSteps: seq<Step>)
      modifies this
      ensures steps == newSteps
    {
      steps := newSteps;
    }

    /** Pipeline.__call__ */
    method Run(ext: Externals, data: Value) returns (result: Result<Value>)
      ensures result == RunSteps(ext, steps, data)
    {
      if |steps| == 0 {
        return Err(IndexError);
      }
      result := Call(ext, steps[0], data);
      assert steps[..1] == [] + [steps[0]];
      FoldSnoc(ext, [], steps[0], data);
      var i := 1;
      while i < |steps| && result.Ok?
        invariant 1 <= i <= |steps|
        invariant result == Fold(ext, steps[..i], data)
      {
        FoldSnoc(ext, steps[..i], steps[i], data);
        assert steps[..i + 1] == steps[..i] + [steps[i]];
        result := Call(ext, steps[i], result.value);
        i := i + 1;
      }
      assert steps == steps[..i] + steps[i..];
      FoldAppend(ext, steps[..i], steps[i..], data);
    }

    /** ExperimentPipeline.__call__: the base run inside a logging context. */
    method RunExperiment(ext: Externals, data: Value) returns (result: Result<Value>)
      requires DataType(kind).Some?
      ensures result == RunSteps(ext, steps, data)
    {
      result := Run(ext, data);
    }
  }

  // What the declared pipelines compute, in terms of their steps.

  lemma FoldCons(ext: Externals, steps: seq<Step>, v: Value)
    requires steps != []
    ensures Fold(ext, steps, v) == ThenAll(ext, Call(ext, steps[0], v), steps[1..])
  {
  }

  lemma PhenotypePipelineRun(ext: Externals, t: Table)
    ensures RunSteps(ext, DeclaredSteps(PhenotypePipeline), One(t)) ==
            match RemoveFfpeRows(t) case Err(e) => Err(e) case Ok(u) => Ok(One(u))
  {
    FoldCons(ext, [RemoveFFPESamples], One(t));
  }

  lemma SubTypesPipelineRun(ext: Externals, t: Table)
    ensures RunSteps(ext, DeclaredSteps(SubTypesPipeline), One(t)) ==
            ext.truncateBarcode(One(MainTumorRows(t)))
  {
    FoldCons(ext, [RetainMainTumors, TruncateBarcode], One(t));
    assert [RetainMainTumors, TruncateBarcode][1..] == [TruncateBarcode];
    FoldCons(ext, [TruncateBarcode], One(MainTumorRows(t)));
  }

  lemma ExperimentPipelineRun(ext: Externals, kind: PipelineKind, t: Table)
    requires kind in {MiRnaPipeline, MRnaPipeline, ProteinsPipeline}
    ensures RunSteps(ext, DeclaredSteps(kind), One(t)) ==
            match ext.filterByNanPercentage(One(MainTumorRows(t)))
            case Err(e) => Err(e)
            case Ok(a) => match ext.filterByVariance(a)
              case Err(e) => Err(e)
              case Ok(b) => ext.truncateBarcode(b)
  {
    var u := One(MainTumorRows(t));
    var steps := DeclaredSteps(kind);
    assert steps == [RetainMainTumors, FilterByNanPercentage, FilterByVariance, TruncateBarcode];
    FoldCons(ext, steps, One(t));
    FoldCons(ext, steps[1..], u);
    assert steps[1..][1..] == steps[2..];
    match ext.filterByNanPercentage(u)
    case Err(e) =>
    case Ok(a) =>
      FoldCons(ext, steps[2..], a);
      assert steps[2..][1..] == steps[3..];
      match ext.filterByVariance(a)
      case Err(e) =>
      case Ok(b) => FoldCons(ext, steps[3..], b);
  }

  lemma MultiDataframesPipelineRun(ext: Externals, ts: seq<Table>)
    ensures RunSteps(ext, DeclaredSteps(MultiDataframesPipeline), Many(ts)) ==
            match Intersect(ts) case Err(e) => Err(e) case Ok(u) => ext.sortByIndex(One(u))
  {
    var steps := DeclaredSteps(MultiDataframesPipeline);
    FoldCons(ext, steps, Many(ts));
    assert steps[1..] == [SortByIndex];
    var r := Intersect(ts);
    assert Call(ext, IntersectDataframes, Many(ts)) == if r.Ok? then Ok(One(r.value)) else Err(r.error);
    if r.Ok? {
      FoldCons(ext, steps[1..], One(r.value));
    }
  }

  lemma DownstreamPipelineRun(ext: Externals, v: Value)
    ensures RunSteps(ext, DeclaredSteps(DownstreamPipeline), v) ==
            match ext.computeSnf(v) case Err(e) => Err(e) case Ok(w) => ext.computeKMedoids(w)
  {
    var steps := DeclaredSteps(DownstreamPipeline);
    FoldCons(ext, steps, v);
    assert steps[1..] == [ComputeKMedoids];
    match ext.computeSnf(v)
    case Err(e) =>
    case Ok(w) => FoldCons(ext, steps[1..], w);
  }
}
