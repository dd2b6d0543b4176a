# Sample harmonisation and pipeline composition of the multi-omics subtyping project

This Dafny project models the deterministic core that prepares the per-view
tables (proteins, mRNA, miRNA, phenotype, subtypes) of a TCGA cohort before
similarity fusion and clustering:

- the TCGA barcode helpers of the data loaders: the sample-type code at 0-based
  offsets 13–14, the primary-tumour test and the barcode-list filter
  (`DataLoaders`);
- the 12-character relabelling of the miRNA and mRNA loaders (`DataHandling`);
- the modelled pipeline steps: the abstract base step, the
  `RetainMainTumors` regular-expression row filter, the `RemoveFFPESamples` flag
  filter and the inner-join `IntersectDataframes` (`PipelineSteps`);
- the pipeline itself: a class holding a `steps` list whose `Run` method loops
  over the steps exactly as `Pipeline.__call__` does. The method is proved equal
  to a functional left fold. The step lists the concrete pipeline classes
  declare are modelled too (`Pipelines`);
- the missing-value fraction per column (`Analysis`);
- metric normalisation and the plot's bar heights and y-axis range
  (`Models`).

A pandas DataFrame is a `Frames.Table`. It has a list of column labels and an
ordered list of rows. Each row is its index label (the sample barcode) and one
`Cell` per column. A cell is `Missing` (NaN/None), a text or a number. Python
exceptions are `Outcomes.Err` values; every pipeline step returns a `Result`. The
external steps, which this model does not interpret, are the six arrow-typed fields of
`PipelineSteps.Externals`: FilterByNanPercentage, FilterByVariance,
TruncateBarcode, SortByIndex, ComputeSNF and ComputeKMedoids. Every statement
about pipelines holds for every choice of these functions.

Where a docstring reads otherwise, the model follows the code:

- The sample-type code is the slice `barcode[13:15]`: 0-based offsets 13 and 14,
  which the docstring calls the 14th and 15th positions.

Facts about the code:

- The FFPE test is the exact, case-sensitive comparison with `"NO"`.
- The relabelling `x[:12]` yields `min(12, |x|)` characters.
- `IntersectDataframes` keeps the row order of the first table; ordering is done
  by the separate `SortByIndex` step.
- `RetainMainTumors`, `RemoveFFPESamples` and the relabelling keep duplicate
  labels. `IntersectDataframes` rejects them with InvalidIndexError when given
  two or more tables, so its output labels are distinct.

## Model

| member | source | states |
|---|---|---|
| `DataLoaders.TumorSample` | src/data_loaders.py:109-132 | the code has exactly the characters at offsets 13 and 14 that exist: length 2, `|b|-13` or 0, and `code[i] == b[13+i]`; it never fails |
| `DataLoaders.IsPrimaryTumorIff` | src/data_loaders.py:134-156 | a barcode is primary iff it has at least 15 characters with `'0'`,`'1'` at offsets 13, 14; so shorter barcodes are never primary |
| `DataLoaders.ExampleBarcode` | src/data_loaders.py:130-156 | `"TCGA-AA-0001-01A"` has code `"01"` and is primary; `"TCGA-AA-0001-11A"` is not |
| `DataLoaders.RetainMainTumors` | src/data_loaders.py:158-181 | the result is an order-preserving subsequence of the input, and each barcode occurs in it as often as in the input if primary, else never |
| `DataLoaders.RetainMainTumorsIdempotent` | src/data_loaders.py:179 | filtering twice equals filtering once; the output is no longer than the input |
| `DataLoaders.RetainMainTumorsConcat` | src/data_loaders.py:179-181 | the filter distributes over list concatenation |
| `DataHandling.Truncate` | src/data_handling.py:78 | the new label has length `min(12, |x|)` and is a prefix of the old one |
| `DataHandling.TruncateIdempotent` | src/data_handling.py:93 | truncating twice equals truncating once; labels of at most 12 characters are unchanged |
| `DataHandling.TruncateMerges` | src/data_handling.py:77-78 | `"TCGA-AA-0001-01A"` and `"TCGA-AA-0001-11A"` both become `"TCGA-AA-0001"` |
| `DataHandling.TruncateIndex` | src/data_handling.py:92-94 | relabelling keeps the columns, the row count, the row order and every row's cells; each new label is `Truncate` of the old one, so labels of at most 12 characters are unchanged |
| `DataHandling.TruncateIndexIdempotent` | src/data_handling.py:76-79 | relabelling a relabelled table changes nothing |
| `DataHandling.TruncateIndexCollides` | src/data_handling.py:91-94 | two distinct sample rows of one patient get the same label; no deduplication happens |
| `PipelineSteps.MainTumorIdIsPrimary` | src/pipeline_steps.py:60 | every label matching `^TCGA-[A-Z0-9]{2}-[A-Z0-9]{4}-01` has at least 15 characters and passes the slice-based primary-tumour test |
| `PipelineSteps.PrimaryIsNotAlwaysMainTumorId` | src/pipeline_steps.py:58-61 | the converse fails: `"XXXX-AA-0001-01A"` and `"tcga-aa-0001-01A"` are primary by the slice test but do not match the regular expression |
| `PipelineSteps.ExampleMainTumorIds` | src/pipeline_steps.py:59-60 | the match is anchored at the start only: `"TCGA-AA-0001-01A"` and `"TCGA-AA-0001-01"` match, `"TCGA-AA-0001-11A"` and a 15th character missing do not |
| `PipelineSteps.MainTumorRows` | src/pipeline_steps.py:45-61 | columns unchanged; rows an order-preserving subsequence; each row kept with full multiplicity iff its label matches the pattern |
| `PipelineSteps.MainTumorRowsIdempotent` | src/pipeline_steps.py:60-61 | applying the step twice equals applying it once |
| `PipelineSteps.MainTumorRowsIds` | src/pipeline_steps.py:60 | the kept labels are the barcode-list filter's output further restricted to the pattern, hence all primary tumours |
| `PipelineSteps.RemoveFfpeRows` | src/pipeline_steps.py:69-87 | KeyError without the `patient.samples.sample.2.is_ffpe` column; otherwise columns unchanged, rows an order-preserving subsequence, each row kept with full multiplicity iff its flag cell is exactly `"NO"` |
| `PipelineSteps.RemoveFfpeIsCaseSensitive` | src/pipeline_steps.py:86 | rows flagged `"no"`, `"YES"` or missing are dropped |
| `PipelineSteps.Intersect` | src/pipeline_steps.py:95-113 | no input: ValueError; one input: returned unchanged; a repeated label among two or more inputs: InvalidIndexError; otherwise the columns are all inputs' columns in input order, a label is kept iff every input has it, in the first input's order |
| `PipelineSteps.IntersectRows` | src/pipeline_steps.py:110-112 | with two or more inputs the result's labels are distinct and it has no more rows than any input |
| `PipelineSteps.IntersectCells` | src/pipeline_steps.py:112 | in each result row, the cells at table k's column offset are exactly the cells of the row with that label in table k |
| `PipelineSteps.Call` | src/pipeline_steps.py:12-37 | calling a step returns its `_call` result; the base step raises NotImplementedError; `RetainMainTumors`, `RemoveFFPESamples` and `IntersectDataframes` give their table result or pass its exception through, and fail with AttributeError, TypeError or ValueError on values of the wrong kind; each external step is the matching `Externals` function applied to the value |
| `Pipelines.FoldSnoc` | src/pipelines.py:48-49 | running one more step continues from the previous result, or keeps its error |
| `Pipelines.FoldAppend` | src/pipelines.py:46-49 | running `s ++ t` is running `t` on the output of `s`; an error in `s` ends the run |
| `Pipelines.RunStepsAppend` | src/pipelines.py:43-54 | composition: for non-empty `s` and `t`, a pipeline of `s ++ t` equals the pipeline of `t` applied to the output of the pipeline of `s` |
| `Pipelines.FailingStepAborts` | src/pipelines.py:46-54 | if step k fails on the output of the steps before it, the whole run fails with that error and returns no partial result |
| `Pipelines.Pipeline.Run` | src/pipelines.py:13-54 | the loop's result is the left fold of the current step list over the input; an empty list fails with IndexError |
| `Pipelines.Pipeline.RunExperiment` | src/pipelines.py:68-70 | the experiment pipeline's call returns what the base call returns; the logging context does not matter |
| `Pipelines.Pipeline.constructor` | src/pipelines.py:57-98 | a new pipeline holds its class's declared step list |
| `Pipelines.Pipeline.SetSteps` | src/offline_analysis.py:24-25 | assigning an instance step list replaces the declared one for that instance |
| `Pipelines.PhenotypePipelineRun` | src/pipelines.py:57-58 | the phenotype pipeline is the FFPE filter alone |
| `Pipelines.SubTypesPipelineRun` | src/pipelines.py:85-88 | the subtypes pipeline is the main-tumour filter followed by TruncateBarcode |
| `Pipelines.ExperimentPipelineRun` | src/pipelines.py:61-82 | the miRNA, mRNA and protein pipelines run the main-tumour filter, FilterByNanPercentage, FilterByVariance and TruncateBarcode in that order, stopping at the first error |
| `Pipelines.MultiDataframesPipelineRun` | src/pipelines.py:91-93 | the multi-table pipeline is the intersection followed by SortByIndex |
| `Pipelines.DownstreamPipelineRun` | src/pipelines.py:96-98 | the downstream pipeline is ComputeSNF followed by ComputeKMedoids |
| `Analysis.MissingCount` | src/analysis.py:24 | the count is at most the number of cells, 0 iff no cell is missing, the full length iff every cell is missing, and it equals the number of occurrences of `Missing` in the multiset of cells |
| `Analysis.NanPercentages` | src/analysis.py:10-29 | one entry per column in column order, labelled with the column's name; its percentage times the row count is the column's missing count, and it lies in [0, 1] |
| `Analysis.NanPercentageExtremes` | src/analysis.py:26-27 | a column without missing cells scores 0; a fully missing column scores 1 |
| `Models.NormalizedValue` | src/models.py:43-45 | ZeroDivisionError iff the range is empty; otherwise `lo + result * (hi - lo) == value` |
| `Models.NormalizedValueAtBounds` | src/models.py:45 | for `lo < hi`: the lower bound maps to 0 and the upper bound to 1 |
| `Models.NormalizedValueMonotone` | src/models.py:45 | for `lo < hi`: the rescaling is strictly increasing and maps values inside [lo, hi] into [0, 1] |
| `Models.UnitRangeScoresUnchanged` | src/models.py:41-59 | Rand and NMI scores keep their raw value |
| `Models.AdjustedRandNormalized` | src/models.py:52-54 | an adjusted Rand score `v` normalises to `(v + 0.5) / 1.5` |
| `Models.PlotValues` | src/models.py:79-82 | the bar heights are, in field order, each score's normalised value under its field name; they fail iff some range is empty |
| `Models.PlotRange` | src/models.py:87-92 | the y-axis range has the greatest width, and it is the first such range in field order, as a stable descending sort puts it first |
| `Models.DefaultPlotRange` | src/models.py:48-59 | with the default ranges the widest is the adjusted Rand range (-0.5, 1) |

## Left out

- Logging, timing and the logging context of `PipelineStep.__call__`,
  `Pipeline.__call__` and `ExperimentPipeline.__call__`: they do not affect any
  result, so `Call` is `_call` itself.
- File validation, CSV parsing, transposition and sanitising in the loaders.
  This is file and pandas I/O. Only the relabelling `x[:12]` is modelled.
- FilterByNanPercentage, FilterByVariance, TruncateBarcode, SortByIndex,
  ComputeSNF, ComputeKMedoids, SimilarityMatrices, EncodeCategoricalData and
  get_metrics are external: this model does not interpret them. The first six are
  uninterpreted parameters of every pipeline statement. The others are called
  only from scripts.
- The scripts main.py, offline_analysis.py, test.py and app.py. Only the instance
  step-list assignment of offline_analysis.py is modelled, as `SetSteps`.
- Figure construction, the plotly and Streamlit code, and identity hashing of the
  data classes.
- Floating point: ratios and normalisation are computed over `real`. NaN and
  rounding do not exist in the model.
- `Analysis.NanPercentages`: requires at least one row. On a zero-row table the
  source divides 0 by 0 and gets NaN percentages, which `real` cannot represent.
- `PipelineSteps.RemoveFfpeRows`: a table with two columns of that label is
  reported as an `AmbiguousColumn` error. In that case pandas masks cells to NaN
  instead of dropping rows.
- `PipelineSteps.Intersect`: for two or more tables, any repeated index label is
  an `InvalidIndexError`. This follows the pandas 2 behaviour of reindexing on
  the combined index. The column labels of the inputs may overlap.
- `PipelineSteps.Call`: a modelled step applied to a value built by an external
  step (`Value.Other`) fails with a fixed error: AttributeError for
  `RetainMainTumors`, TypeError for `RemoveFFPESamples` and `IntersectDataframes`.
  Which exception Python raises there depends on that value's type, which is not
  modelled.
- Calling an instance of the abstract `Pipeline` or `ExperimentPipeline`
  directly raises AttributeError: there is no `steps` (src/pipelines.py:46) or
  no `data_type` (src/pipelines.py:69). This is not modelled; only the concrete
  pipeline classes are.
