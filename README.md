# Ensemble spike curation with a vision-language model — Dafny model

SpikeAgent's deprecated VLM curation tool sorts the units of a spike-sorting
run into good and bad ones. It sends each unit's images (and, optionally, its
quality metrics) to a vision-language model under a system prompt and some
few-shot examples. Three reviewers answer per unit, and their answers are
merged into one consensus record. This project models that core:

- `PromptLoader` (`prompt_loader.py`): the template table, with the
  five modality blocks, and the assembly of the system prompt. The head comes
  first, then the requested modality blocks in order, then the optional
  metrics and few-shot blocks, and the instruction last. An unknown modality
  raises `ValueError`.
- `Fewshot` (`create_fewshot_messages`): one message of good examples and one
  of bad examples. Each group is present only when it has ids, and every
  example id must be in the image table.
- `Reviewer`: the per-unit messages (`create_image_modality_messages`) and
  the retry loop of one reviewer (`process_unit`). The loop makes up to ten
  attempts, waits between them, and falls back to an `Error` sentinel. It
  also covers the panel of reviewers 1, 2 and 3 (`async_run_with_reviewers`).
- `Aggregation` (`aggregate_results`): the mean score, the majority vote
  (Good needs at least two Good votes), the combined reasoning and the
  per-reviewer columns.
- `Batch`: `run_in_batch` runs the units in consecutive slices of
  `num_workers // 3`, each gathered before the next. `async_run` checks the
  metrics table against the image table first, builds the few-shot messages,
  runs the batch and sorts the records by unit id.

Supporting modules:
- `Wrappers`: `Option`, the exceptions, and `Result` for "returns or raises".
  `Traverse` models a comprehension whose element may raise.
- `Messages`: the message, image-table and metrics-table types, and
  `.loc` as `Lookup`.
- `Text`: decimal rendering, join and split.

The model call is an abstract `Invoker`. It maps the messages, the reviewer
id and the attempt number to an answer or a failure. Every property about
the retry loop, the panel and the run therefore holds for every behaviour of
the model. Each operation that loops in the source is a `method` with a
loop. Its `ensures` ties the result to a specification function, and the
lemmas state the properties of that function.

## Model

| member | source | states |
|---|---|---|
| Aggregation.Aggregate | spikeagent_0.102.3_cpu/tool/vlm_curation_deprecated/async_vlm.py:107-135 | a record exists exactly when there is at least one review; an empty list raises `StatisticsError` from `mean` |
| Aggregation.AverageScore | spikeagent_0.102.3_cpu/tool/vlm_curation_deprecated/async_vlm.py:108-112 | the average score is the sum of every reviewer's score (sentinels counting 0) over the number of reviews, and lies between the smallest and the largest score |
| Aggregation.MeanExample | spikeagent_0.102.3_cpu/tool/vlm_curation_deprecated/async_vlm.py:112 | scores 0.8, 0.6 and 0.4 average to 0.6 |
| Aggregation.MajorityVote | spikeagent_0.102.3_cpu/tool/vlm_curation_deprecated/async_vlm.py:115-119 | the final label is never Error, and it is Good exactly when at least two labels (multiset count) are Good, otherwise Bad |
| Aggregation.VotePatterns | spikeagent_0.102.3_cpu/tool/vlm_curation_deprecated/async_vlm.py:115-119 | Good-Good-Bad gives Good; Good-Bad-Bad, Good-Error-Error and Error-Error-Error give Bad |
| Aggregation.CombinedReasoning | spikeagent_0.102.3_cpu/tool/vlm_curation_deprecated/async_vlm.py:122 | when no reasoning contains a newline, splitting the combined reasoning on newlines gives one line per review, in order, reading "Reviewer <id>: <reasoning>" |
| Aggregation.ScoreColumns | spikeagent_0.102.3_cpu/tool/vlm_curation_deprecated/async_vlm.py:125 | the score columns are exactly `reviewer_<id>_score` for the reviewers present; each holds the score of the last review with that id |
| Aggregation.ClassColumns | spikeagent_0.102.3_cpu/tool/vlm_curation_deprecated/async_vlm.py:126 | the class columns are exactly `reviewer_<id>_class` for the reviewers present; each holds the label of the last review with that id |
| Aggregation.ColumnKeyInjective | spikeagent_0.102.3_cpu/tool/vlm_curation_deprecated/async_vlm.py:125-126 | two reviewers never share a column name: equal names with suffixes of equal length mean the same id and suffix |
| Aggregation.ScoreAndClassKeysDiffer | spikeagent_0.102.3_cpu/tool/vlm_curation_deprecated/async_vlm.py:133-134 | a score column never has the name of a class column, so merging the two dictionaries into the row loses nothing |
| Text.SplitJoin | spikeagent_0.102.3_cpu/tool/vlm_curation_deprecated/async_vlm.py:122 | joining parts that do not contain the separator, then splitting on it, gives the parts back |
| Text.ParseDecimalInverts | spikeagent_0.102.3_cpu/tool/vlm_curation_deprecated/async_vlm.py:122 | the decimal rendering of a reviewer id in an f-string reads back as the same number |
| Messages.Lookup | spikeagent_0.102.3_cpu/tool/vlm_curation_deprecated/async_vlm.py:155 | `.loc[id]` finds a row carrying `id`, and misses exactly when no row carries it |
| Messages.LookupDistinct | spikeagent_0.102.3_cpu/tool/vlm_curation_deprecated/async_vlm.py:155 | with distinct index labels, looking up a row's label gives that row's data |
| Reviewer.ImageMessages | spikeagent_0.102.3_cpu/tool/vlm_curation_deprecated/async_vlm.py:56-70 | the caption and the image strip come first; a metrics message follows exactly when a metrics table is given, and it is the metrics caption followed by that unit's own row of metrics; a unit missing from that table raises `KeyError` with its id |
| Reviewer.MetricsTextParts | spikeagent_0.102.3_cpu/tool/vlm_curation_deprecated/async_vlm.py:66-67 | the comma-joined metrics text splits back on commas into exactly one `name: value` part per metric of the row, in the row's order, when no name or value contains a comma |
| Reviewer.RetryFrom | spikeagent_0.102.3_cpu/tool/vlm_curation_deprecated/async_vlm.py:88-103 | 1 to 10 calls; one delay fewer than calls; every earlier attempt failed; the answer of the last call is returned, or after ten failures the `Error` sentinel |
| Reviewer.RetryReturnsFirstAnswer | spikeagent_0.102.3_cpu/tool/vlm_curation_deprecated/async_vlm.py:88-91 | when attempt k is the first to answer, the task returns that answer tagged with the reviewer id after k+1 calls and k delays |
| Reviewer.RetryExhausted | spikeagent_0.102.3_cpu/tool/vlm_curation_deprecated/async_vlm.py:93-103 | ten failures give `Error` with score 0 and empty reasoning, after ten calls and nine delays, and never raise |
| Reviewer.ProcessUnit | spikeagent_0.102.3_cpu/tool/vlm_curation_deprecated/async_vlm.py:73-103 | the loop returns what the retry specification gives on the messages system + unit + few-shot, or the `KeyError` of the unit's messages |
| Reviewer.RunWithReviewers | spikeagent_0.102.3_cpu/tool/vlm_curation_deprecated/async_vlm.py:138-146 | the loop over reviewers 1, 2, 3 returns the ensemble specification: the aggregate of their reviews and the calls made |
| Reviewer.CallsBounds | spikeagent_0.102.3_cpu/tool/vlm_curation_deprecated/async_vlm.py:85-103 | traces of 1 to 10 calls each add up to between one and ten calls per trace |
| Reviewer.EnsembleOutcome | spikeagent_0.102.3_cpu/tool/vlm_curation_deprecated/async_vlm.py:138-146 | a unit raises exactly when its metrics row is missing (`KeyError`); otherwise its record carries its id and aggregates the three reviewers' retry results in panel order, after 3 to 30 calls |
| Fewshot.ExampleContent | spikeagent_0.102.3_cpu/tool/vlm_curation_deprecated/async_vlm.py:37-41 | the loop builds the caption followed by each example's image strip in id order, or raises the `KeyError` of the first missing id |
| Fewshot.CreateFewshotMessages | spikeagent_0.102.3_cpu/tool/vlm_curation_deprecated/async_vlm.py:34-53 | the method returns the few-shot specification: the good group, then the bad group, each only when it has ids |
| Fewshot.SectionContent | spikeagent_0.102.3_cpu/tool/vlm_curation_deprecated/async_vlm.py:36-49 | a group succeeds exactly when all its ids are in the image table; then it is no message for no ids, else one message of the caption and one strip per id in order |
| Fewshot.FewshotShape | spikeagent_0.102.3_cpu/tool/vlm_curation_deprecated/async_vlm.py:34-53 | success exactly when every good and bad id is known; then one message per non-empty group, good before bad, each with its caption and strips |
| Fewshot.MissingExampleRaises | spikeagent_0.102.3_cpu/tool/vlm_curation_deprecated/async_vlm.py:38-39 | the first good id missing from the image table raises `KeyError` with that id |
| Batch.ChunksCover | spikeagent_0.102.3_cpu/tool/vlm_curation_deprecated/async_vlm.py:162-163 | the slices `tasks[i:i+batch_size]`, concatenated, give the unit ids back in order |
| Batch.ChunksSizes | spikeagent_0.102.3_cpu/tool/vlm_curation_deprecated/async_vlm.py:162-163 | no slice is empty or holds more than the batch size; every slice but the last is full |
| Batch.ChunksOfTen | spikeagent_0.102.3_cpu/tool/vlm_curation_deprecated/async_vlm.py:151-163 | ten units and nine workers give the slices [1,2,3], [4,5,6], [7,8,9], [10] |
| Batch.LimitedTask | spikeagent_0.102.3_cpu/tool/vlm_curation_deprecated/async_vlm.py:153-158 | the unit's image row is looked up (`KeyError` when absent), then its ensemble runs |
| Batch.Gather | spikeagent_0.102.3_cpu/tool/vlm_curation_deprecated/async_vlm.py:164 | gathering a slice gives every unit's run in slice order, or the exception of the first unit that raises |
| Batch.RunInBatch | spikeagent_0.102.3_cpu/tool/vlm_curation_deprecated/async_vlm.py:148-166 | the slice-by-slice loop returns the batch specification: a negative worker count raises `ValueError` from the semaphore, a zero batch size raises `ValueError` from `range`, otherwise the units' records in order, the slices and the calls |
| Batch.WorkerCountErrors | spikeagent_0.102.3_cpu/tool/vlm_curation_deprecated/async_vlm.py:150-162 | fewer than 0 workers raises the semaphore error; 0 to 2 workers raises the zero-step error; from 3 workers the batch succeeds exactly when every unit's task does |
| Batch.BatchRecords | spikeagent_0.102.3_cpu/tool/vlm_curation_deprecated/async_vlm.py:161-166 | one record per unit id, in order, each the record of that unit's task and carrying its id; 3 to 30 model calls per unit |
| Batch.BatchSchedule | spikeagent_0.102.3_cpu/tool/vlm_curation_deprecated/async_vlm.py:150-164 | the gathered slices cover the units in order; each holds 1 to `num_workers // 3` units, so no more than `num_workers` reviewer calls are in flight; only the last slice may be short |
| Batch.SortByUnitCorrect | spikeagent_0.102.3_cpu/tool/vlm_curation_deprecated/async_vlm.py:193 | the sorted rows are ascending by unit id and a permutation of the input rows |
| Batch.SortByUnitStrict | spikeagent_0.102.3_cpu/tool/vlm_curation_deprecated/async_vlm.py:193-194 | rows with distinct unit ids sort strictly ascending |
| Batch.AsyncRun | spikeagent_0.102.3_cpu/tool/vlm_curation_deprecated/async_vlm.py:168-196 | a metrics table of the wrong length raises `AssertionError`; otherwise the method returns the run specification: few-shot messages, the batch over the image table's ids, rows sorted by unit id |
| Batch.MetricsMismatchFailsFirst | spikeagent_0.102.3_cpu/tool/vlm_curation_deprecated/async_vlm.py:177-179 | the length check fails the run whatever the model, the example ids and the worker count |
| Batch.RunRows | spikeagent_0.102.3_cpu/tool/vlm_curation_deprecated/async_vlm.py:181-194 | a successful run has one row per image-table row, sorted by unit id, carrying exactly the table's unit ids (as a multiset), strictly ascending when the ids are distinct |
| Batch.RunRowRecords | spikeagent_0.102.3_cpu/tool/vlm_curation_deprecated/async_vlm.py:181-194 | every output row is the ensemble record of its own unit's images under the run's prompts |
| Batch.EmptyTableRaises | spikeagent_0.102.3_cpu/tool/vlm_curation_deprecated/async_vlm.py:192-193 | an empty image table gets past the checks and fails at the sort with `KeyError('unit_ids')`: a frame built from no records has no such column |
| Batch.RunNeverDropsUnits | spikeagent_0.102.3_cpu/tool/vlm_curation_deprecated/async_vlm.py:168-196 | with a non-empty table, known example ids, a covering (or no) metrics table and at least three workers, the run succeeds whatever the model does: reviewer failures never drop a unit |
| PromptLoader.LoadAllPrompts | spikeagent_0.102.3_gpu/tool/vlm_curation_deprecated/prompt_loader.py:11-27 | the modality keys are exactly the five known modalities, each bound to its own file under `prompts/modality` |
| PromptLoader.BuildPromptMessages | spikeagent_0.102.3_gpu/tool/vlm_curation_deprecated/prompt_loader.py:29-51 | loading the table and formatting it gives the prompt assembled from the loaded table |
| PromptLoader.FormatPrompt | spikeagent_0.102.3_gpu/tool/vlm_curation_deprecated/prompt_loader.py:32-51 | the loop returns head + the requested blocks in order + optional metrics + optional few-shot + instruction, or the first unknown key's error |
| PromptLoader.UnknownModalityRaises | spikeagent_0.102.3_gpu/tool/vlm_curation_deprecated/prompt_loader.py:38-40 | the prompt fails exactly when some key is unknown, and the `ValueError` names the first unknown key |
| PromptLoader.ModalityVocabulary | spikeagent_0.102.3_gpu/tool/vlm_curation_deprecated/prompt_loader.py:15-40 | with the loaded table, a request succeeds exactly when every key is one of the five modalities |
| PromptLoader.SingleMessageLayout | spikeagent_0.102.3_gpu/tool/vlm_curation_deprecated/prompt_loader.py:32-51 | when each template gives one message, the prompt has 2 + keys + optional blocks messages: head first, the blocks in request order (repeats kept), metrics, few-shot, instruction last |

## Left out

- Aggregation.Aggregate: the average is the exact mean; `round(..., 2)` is not modelled (binary floating point has no exact counterpart here).
- Aggregation.AverageScore: states the exact mean, not the rounded one, for the same reason.
- Reviewer.ImageMessages: metric values are given already rendered as text; the `:.5f` float formatting is not modelled.
- Image concatenation (`concat_images_horizontally`) is represented by the list of a unit's images. Displaying the example strips (`plot_encoded_img`) is output only and is left out.
- The model, `with_structured_output` and parsing of its answer are the abstract `Invoker`. Any exception it raises is one `Failure`. Pydantic validation of the answer's fields is not modelled, so a score is any real.
- Delays between attempts are counted, not timed. `print`, `tqdm` progress and `nest_asyncio` are output or set-up only.
- Batch.Gather: interleaving inside a slice is not modelled. When several units of a slice raise, the model reports the first in slice order, which is what a FIFO event loop surfaces first. The other units' model calls in that slice are not counted once the batch raises.
- Batch.RunInBatch: the semaphore's waiting is not modelled. `BatchSchedule` shows that a slice never needs more than `num_workers` permits.
- Batch.SortByUnit: a stable insertion sort. pandas' default sort is not stable, so with duplicate index labels the order of equal ids may differ. `.loc` on a duplicated label returns several rows; `Lookup` takes the first.
- Building the result `DataFrame` and setting its index: the rows are the records, each carrying its unit id.
- Reading prompt files (`load_prompt`, `strip`, the module directory) and formatting a template are the abstract `Renderer`. A template that needs variables, which would raise when formatted, is not modelled.
- `featrue_caption_map` is declared but never used by the core.
- `run_vlm.py`, `main.py` and `src/spikeagent/__init__.py` are callers and packaging; they are not part of this model.
