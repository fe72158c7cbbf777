# TarsosSegmenter analysis model in Dafny

This project models the core of `AASModel`, the analysis model of the
TarsosSegmenter audio structure analyser. It covers four parts.

- **The per-frame feature store.** There are three tables (MFCC, constant-Q and
  autocorrelation), each addressed by an integer feature origin. Storing one
  frame's vector checks the frame range, then the origin, then the table.
  Reading a whole table fails when the origin is unknown or the table is null
  or empty.
- **The extraction callback.** For every audio event it stores each enabled
  kind's vector at the event's frame number. The first failing store ends the
  run.
- **The self-similarity matrix builder.** It allocates lower-triangular distance
  matrices and fills them with per-kind distances:
  - MFCC and constant-Q use a Euclidean distance that skips coefficient 0;
  - autocorrelation uses the root of the lag-0 difference.
  
  It tracks a running minimum and maximum per kind. It then blends the kinds'
  min-max normalised distances into one score per frame pair, on a scale of
  0 to `MAX_SCALE_VALUE` (1000). A row-by-row copy of the matrix becomes the
  working copy that structure detection edits.
- **The session bookkeeping.**
  - Loading the configuration decides whether extracted features may be reused
    (`onlyStructureDetection`); finishing a calculation sets that flag and a
    new audio file clears it.
  - The frame counts come from the audio length.
  - Frame-size advice is given for long recordings.
  - A run clears the segmentation levels it is about to detect.
  - Structure detection runs only when some level is enabled.

The files, one module each:

- `results.dfy`: the `Option`, `Result` and `Outcome` wrappers that carry the
  Java exceptions as values.
- `features.dfy`: feature origins and kinds, and the tables as values. `Put` and
  `Lookup` specify `addFeaturesToFrame` and `getFeatures`.
- `session.dfy`: the configuration, the reuse rule, level clearing, frame-size
  advice and the frame-count arithmetic (Java `int` division and `Math.ceil`).
- `extraction.dfy`: the extraction callback as a function over the tables, with
  lemmas saying which events get stored and when the run fails.
- `similarity.dfy`: the distance and blend definitions and their properties. It
  also holds the imperative builder over arrays of rows, proved entry by entry
  against those definitions.
- `model.dfy`: the class `AASModel`, whose fields are the Java fields the core
  updates. Its methods are proved against the functions above.

Floats are modelled as reals. `Math.sqrt` is a parameter: the properties need
only that it is zero at zero and non-negative on non-negative arguments.
`Float.MIN_VALUE` (2^-149) and `Float.MAX_VALUE` are exact constants.

Because the running maximum starts at the positive `Float.MIN_VALUE` and every
distance is at least 0, the maximum always lies strictly above the minimum,
which is exactly 0. So the normalisation never divides by zero. Input that is
silent or constant gives `MAX_SCALE_VALUE` everywhere.

## Model

| member | source | states |
|---|---|---|
| Features.Origin | src/be/tarsos/tarsossegmenter/model/AASModel.java:46-48 | each kind's origin constant selects that kind again |
| Features.KindOf | src/be/tarsos/tarsossegmenter/model/AASModel.java:860-873 | an origin selects a kind exactly when it is one of the constants 0, 1 and 2 |
| Features.Put | src/be/tarsos/tarsossegmenter/model/AASModel.java:854-874 | a frame number outside `0 .. amountOfFrames-1` fails first, and an unknown origin fails next. Otherwise the store succeeds exactly when the selected table exists and reaches the frame. On success only that slot of that table changes, and the other tables are untouched |
| Features.Lookup | src/be/tarsos/tarsossegmenter/model/AASModel.java:876-901 | an unknown origin fails. Otherwise the table is returned exactly when it exists and holds at least one frame, and fails with "no features" when not |
| Features.PutThenLookup | src/be/tarsos/tarsossegmenter/model/AASModel.java:854-901 | after a successful store, the table reads back with the new vector at its frame and every other frame as before. Every other origin reads exactly as before |
| Session.KeepsReuse | src/be/tarsos/tarsossegmenter/model/AASModel.java:138-148 | the reuse flag survives a reload exactly when it was set and none of the ten extraction settings changed |
| Session.LevelsDoNotAffectReuse | src/be/tarsos/tarsossegmenter/model/AASModel.java:131-148 | the macro, meso and micro switches never affect whether features are reused |
| Session.ClearForRun | src/be/tarsos/tarsossegmenter/model/AASModel.java:427-433 | an enabled macro level clears all three levels. Otherwise an enabled meso level clears meso and micro, and an enabled micro level clears micro; with no level enabled nothing is cleared |
| Session.RunsDetection | src/be/tarsos/tarsossegmenter/model/AASModel.java:441 | structure detection runs exactly when the run clears something of a segmentation that has segments on every level, that is, when at least one level is enabled |
| Session.ClearingMatchesDetection | src/be/tarsos/tarsossegmenter/model/AASModel.java:427-443 | a run that does not detect structure clears nothing, and one that does always clears the micro level |
| Session.FrameSizeAdvice | src/be/tarsos/tarsossegmenter/model/AASModel.java:274-321 | advice is 4096, 8192 or 16384, always at least twice the current frame size. Frames above 8192 get none. More than 16 minutes with frames up to 8192 always gets 16384 |
| Session.AdviceIsFinal | src/be/tarsos/tarsossegmenter/model/AASModel.java:274-321 | an accepted suggestion draws no further advice for the same recording |
| Session.AdviceGrowsWithLength | src/be/tarsos/tarsossegmenter/model/AASModel.java:274-321 | a longer recording is advised whenever a shorter one is, and at least as large a frame size |
| Session.CeilDiv | src/be/tarsos/tarsossegmenter/model/AASModel.java:336-338 | the result is the ceiling of the exact quotient: it is the least multiple count that reaches the dividend |
| Session.TruncDiv | src/be/tarsos/tarsossegmenter/model/AASModel.java:151-152 | Java `int` division: the remainder is smaller than the divisor in magnitude and has the sign of the dividend |
| Session.FramesOfLength | src/be/tarsos/tarsossegmenter/model/AASModel.java:151-152 | for a non-negative length and a positive hop `frameSize - overlapping`, the amount of frames is the number of whole hops that fit in the length |
| Session.FrameCount | src/be/tarsos/tarsossegmenter/model/AASModel.java:336-338 | the ceiling of the duration over the step `frameSize - overlapping + 1`, for every step. For a positive step it is the least `n` with `n * step` at least the duration, non-negative, and at least 1 for a non-empty duration. For a negative step it is the ceiling of the negative quotient. A zero step gives the `int` cast of an infinite quotient (`INT_MAX` or `INT_MIN`), or 0 for the NaN of an empty duration |
| Session.FrameCountWithDefaults | src/be/tarsos/tarsossegmenter/model/AASModel.java:215-217 | one frame plus the least count that covers the rest of the duration after the first frame. At least 1 when the audio is at least one frame long |
| Extraction.PutKind | src/be/tarsos/tarsossegmenter/model/AASModel.java:376-387 | a kind that is not extracted stores nothing and cannot fail, and a failed store leaves the tables as they were |
| Extraction.PutKindKeepsShape | src/be/tarsos/tarsossegmenter/model/AASModel.java:854-869 | one store leaves every other kind's table as it was, and no table is created, dropped or resized |
| Extraction.FeedFrame | src/be/tarsos/tarsossegmenter/model/AASModel.java:374-388 | an event stores nothing and cannot fail when no kind is extracted |
| Extraction.FeedFrameKeepsShape | src/be/tarsos/tarsossegmenter/model/AASModel.java:374-388 | an event creates, drops or resizes no table, and leaves the tables of kinds that are not extracted as they were |
| Extraction.Feed | src/be/tarsos/tarsossegmenter/model/AASModel.java:368-396 | a run fails only when some kind is extracted |
| Extraction.FeedKeepsShape | src/be/tarsos/tarsossegmenter/model/AASModel.java:368-396 | for any events, a run creates, drops or resizes no table, and leaves the tables of kinds that are not extracted as they were |
| Extraction.StoresStep | src/be/tarsos/tarsossegmenter/model/AASModel.java:368-396 | storing one event and then the events after it is storing all of them, each at its frame |
| Extraction.FeedFrameStores | src/be/tarsos/tarsossegmenter/model/AASModel.java:368-390 | an event whose frame fits is stored at that frame in every extracted table and nowhere else |
| Extraction.FeedFrameOutOfRange | src/be/tarsos/tarsossegmenter/model/AASModel.java:374-387 | an event past the last frame fails with `FrameOutOfRange` at the first extracted kind and stores nothing |
| Extraction.FeedFills | src/be/tarsos/tarsossegmenter/model/AASModel.java:368-396 | when every event fits, extraction succeeds and each event's vectors sit at its frame in every extracted table. Every other entry, and every table not extracted, is unchanged |
| Extraction.FeedOverflows | src/be/tarsos/tarsossegmenter/model/AASModel.java:368-396 | with more events than frames, extraction fails with `FrameOutOfRange` once the events that fit are stored (with no kind extracted, nothing fails) |
| Extraction.NothingExtracted | src/be/tarsos/tarsossegmenter/model/AASModel.java:374-387 | with no kind extracted, a run stores nothing and never fails |
| SelfSimilarity.Extracted.Factor | src/be/tarsos/tarsossegmenter/model/AASModel.java:605-614 | `factor` is at most 3, and 0 exactly when no kind is enabled |
| SelfSimilarity.SquaredGap | src/be/tarsos/tarsossegmenter/model/AASModel.java:552-560 | the sum of squares is non-negative and 0 for identical vectors |
| SelfSimilarity.SquaredGapSkipsCoefficientZero | src/be/tarsos/tarsossegmenter/model/AASModel.java:553 | coefficient 0 never affects the distance: the sum starts at coefficient 1 |
| SelfSimilarity.Euclidean | src/be/tarsos/tarsossegmenter/model/AASModel.java:552-561 | the MFCC and constant-Q distance is non-negative and 0 for identical vectors |
| SelfSimilarity.RowDistance | src/be/tarsos/tarsossegmenter/model/AASModel.java:552-561 | the distance of two rows of a table is non-negative and 0 for a row and itself. With at most one coefficient it is 0 and reads no row, so the table may be missing; otherwise it is the Euclidean distance of the two rows |
| SelfSimilarity.LagZeroDistance | src/be/tarsos/tarsossegmenter/model/AASModel.java:588-590 | the autocorrelation distance is non-negative and 0 when the lag-0 values agree |
| SelfSimilarity.Distance | src/be/tarsos/tarsossegmenter/model/AASModel.java:551-600 | every kind's distance is non-negative, and 0 between a frame and itself |
| SelfSimilarity.LargestBounds | src/be/tarsos/tarsossegmenter/model/AASModel.java:563-565 | the running maximum bounds its start value and every value seen, and is one of them |
| SelfSimilarity.SmallestBounds | src/be/tarsos/tarsossegmenter/model/AASModel.java:566-568 | the running minimum is bounded by its start value and by every value seen, and is one of them |
| SelfSimilarity.Bracket | src/be/tarsos/tarsossegmenter/model/AASModel.java:507-512 | after the distance pass a kind's minimum and maximum bracket every distance. The minimum is exactly 0 and the maximum is at least `Float.MIN_VALUE`, so normalisation never divides by zero |
| SelfSimilarity.Normalised | src/be/tarsos/tarsossegmenter/model/AASModel.java:622 | a min-max normalised distance scaled by `c` lies in `[0, c]`: 0 at the minimum and `c` at the maximum |
| SelfSimilarity.Share | src/be/tarsos/tarsossegmenter/model/AASModel.java:621-629 | a kind subtracts nothing when disabled and nothing on the diagonal; otherwise at most `MAX_SCALE_VALUE / factor` |
| SelfSimilarity.Similarity | src/be/tarsos/tarsossegmenter/model/AASModel.java:618-632 | every blended score lies in `[0, MAX_SCALE_VALUE]`, and a frame compared with itself scores exactly `MAX_SCALE_VALUE` |
| SelfSimilarity.ZeroDistancesAreFullySimilar | src/be/tarsos/tarsossegmenter/model/AASModel.java:507-631 | a pair whose enabled distances are all 0 scores exactly `MAX_SCALE_VALUE`, whatever its vectors are |
| SelfSimilarity.ConstantInputIsFullySimilar | src/be/tarsos/tarsossegmenter/model/AASModel.java:507-512 | when every enabled kind delivers the same vector for all frames it reads, every score is `MAX_SCALE_VALUE` |
| SelfSimilarity.NewTriangle | src/be/tarsos/tarsossegmenter/model/AASModel.java:540-543 | the new matrix has `size` distinct fresh rows; row `i` has `i + 1` entries, all 0 |
| SelfSimilarity.EuclideanDistance | src/be/tarsos/tarsossegmenter/model/AASModel.java:552-561 | the coefficient loop, which reads the two rows only inside its body, computes exactly `RowDistance` over coefficients `1 .. n-1` |
| SelfSimilarity.PassFolds | src/be/tarsos/tarsossegmenter/model/AASModel.java:549-602 | the extremes the pass keeps by comparison, entry by entry, are the minimum and maximum folds over every distance seen so far |
| SelfSimilarity.Record | src/be/tarsos/tarsossegmenter/model/AASModel.java:562-568 | storing one distance and comparing it with the running extremes keeps the matrix and the extremes in step with the pass |
| SelfSimilarity.Step | src/be/tarsos/tarsossegmenter/model/AASModel.java:551-600 | one enabled kind's step stores that kind's distance for the pair and updates its extremes |
| SelfSimilarity.VisitPair | src/be/tarsos/tarsossegmenter/model/AASModel.java:550-601 | one pair advances every enabled kind by one entry, in the order MFCC, constant-Q, autocorrelation |
| SelfSimilarity.DistanceRow | src/be/tarsos/tarsossegmenter/model/AASModel.java:550-601 | one row of the pass leaves every enabled kind's row `i` filled and its extremes current |
| SelfSimilarity.DistanceLoop | src/be/tarsos/tarsossegmenter/model/AASModel.java:549-602 | the whole pass leaves every enabled kind's matrix and extremes as they are at the end |
| SelfSimilarity.DistancePass | src/be/tarsos/tarsossegmenter/model/AASModel.java:507-602 | afterwards every enabled kind's matrix holds that kind's distance for every pair, and its minimum and maximum are those of all its distances |
| SelfSimilarity.ShareTerm | src/be/tarsos/tarsossegmenter/model/AASModel.java:622-628 | the amount the blend loop subtracts for a kind, computed from the stored distance and extremes, is that kind's share |
| SelfSimilarity.BlendEntry | src/be/tarsos/tarsossegmenter/model/AASModel.java:620-629 | the entry becomes the blended similarity of its pair, and the rest of its row is unchanged |
| SelfSimilarity.BlendRow | src/be/tarsos/tarsossegmenter/model/AASModel.java:619-630 | row `i` of the similarity matrix becomes the blended similarities of its pairs, and earlier rows keep theirs |
| SelfSimilarity.BlendLoop | src/be/tarsos/tarsossegmenter/model/AASModel.java:618-632 | every row of the similarity matrix becomes the blended similarities of its pairs |
| SelfSimilarity.BlendPass | src/be/tarsos/tarsossegmenter/model/AASModel.java:618-632 | given filled distance matrices and their extremes, every entry of the similarity matrix becomes the blended similarity of its pair |
| SelfSimilarity.MaybeTriangle | src/be/tarsos/tarsossegmenter/model/AASModel.java:516-538 | an enabled kind gets a fresh triangular distance matrix, and a disabled one none |
| SelfSimilarity.Allocate | src/be/tarsos/tarsossegmenter/model/AASModel.java:516-543 | a triangular matrix is allocated for each enabled kind, then the similarity matrix. All are fresh, and no two share a row |
| SelfSimilarity.Coefficient | src/be/tarsos/tarsossegmenter/model/AASModel.java:604-616 | the coefficient is `MAX_SCALE_VALUE` over the number of enabled kinds whenever one is enabled |
| SelfSimilarity.Construct | src/be/tarsos/tarsossegmenter/model/AASModel.java:506-633 | the result is a fresh lower-triangular matrix whose every entry is the blended similarity of its frame pair |
| SelfSimilarity.CopyRow | src/be/tarsos/tarsossegmenter/model/AASModel.java:423-425 | a row copy is a fresh array with the same entries |
| SelfSimilarity.CopyMatrix | src/be/tarsos/tarsossegmenter/model/AASModel.java:421-426 | the copy has as many rows as the original; each is a fresh, distinct array with the same entries |
| Model.ExtractionMakesReady | src/be/tarsos/tarsossegmenter/model/AASModel.java:343-412 | tables with room for every frame that receive one event per frame always succeed. If the MFCC vectors reach coefficient `mfccCoef - 1`, the autocorrelation vectors hold a lag-0 value and the constant-Q vectors share one length, the stored features are everything the distance pass reads |
| Model.NewTable | src/be/tarsos/tarsossegmenter/model/AASModel.java:348 | a new feature table has the given number of frames, none of them delivered |
| Model.AASModel.constructor | src/be/tarsos/tarsossegmenter/model/AASModel.java:94-101 | a new model holds the stored configuration, no audio file, no tables, no matrices, an empty segmentation and nothing to reuse |
| Model.AASModel.LoadConfiguration | src/be/tarsos/tarsossegmenter/model/AASModel.java:111-158 | the settings become the stored ones and the reuse flag follows `KeepsReuse`. With an audio file, the amount of frames is recomputed by `int` division; that division fails when `frameSize` equals `overlapping`. Nothing else changes |
| Model.AASModel.OnCalculationStarted | src/be/tarsos/tarsossegmenter/model/AASModel.java:481-482 | a calculation starts from an empty segmentation |
| Model.AASModel.OnCalculationEnd | src/be/tarsos/tarsossegmenter/model/AASModel.java:493-494 | after a calculation the features may be reused |
| Model.AASModel.OnAudioFileChange | src/be/tarsos/tarsossegmenter/model/AASModel.java:814-825 | reuse is off and the similarity matrix is dropped. Then the amount of frames, the sample rate and an empty segmentation come from the new file, failing on a null file or a zero frame step |
| Model.AASModel.SetNewAudioFile | src/be/tarsos/tarsossegmenter/model/AASModel.java:639-687 | with the GUI, or when transcoding succeeded, the file is replaced and the audio-file change follows. Without the GUI, a failed transcoding changes nothing |
| Model.AASModel.StoreFrame | src/be/tarsos/tarsossegmenter/model/AASModel.java:861-869 | a store into a null table or past its end fails and changes nothing; otherwise exactly that slot changes |
| Model.AASModel.AddFeaturesToFrame | src/be/tarsos/tarsossegmenter/model/AASModel.java:854-874 | the tables change exactly as `Put` says, with its error on failure and no change then |
| Model.AASModel.GetFeatures | src/be/tarsos/tarsossegmenter/model/AASModel.java:876-901 | the stored array itself, not a copy, is returned exactly when `Lookup` finds it, otherwise `Lookup`'s error |
| Model.AASModel.StartExtraction | src/be/tarsos/tarsossegmenter/model/AASModel.java:323-366 | extraction runs exactly when features are not reused. It then sets the amount of frames to `FrameCount`. A negative amount fails with a negative-size error at the first table allocated, and no table changes. Otherwise every extracted kind gets a fresh, empty table of that length, with room for every frame. Other tables are kept |
| Model.AASModel.ExtractFrames | src/be/tarsos/tarsossegmenter/model/AASModel.java:368-396 | the tables end as `Feed` describes, and the run fails with the first failing store's error |
| Model.AASModel.ConstructSelfSimilarityMatrix | src/be/tarsos/tarsossegmenter/model/AASModel.java:506-633 | a negative amount of frames leaves no matrix. The construction succeeds exactly when the stored features are long enough for every distance that reads them (with `mfccCoef` at most 1 no MFCC row is read, so the MFCC table may be missing): every entry is then the blended similarity of its pair. Otherwise the fresh matrix of zeros is left |
| Model.AASModel.CopyResultMatrix | src/be/tarsos/tarsossegmenter/model/AASModel.java:421-426 | the working copy is an element-wise equal copy of the similarity matrix that shares no row with it. A null similarity matrix fails and leaves the old copy |
| Model.AASModel.FinishCalculation | src/be/tarsos/tarsossegmenter/model/AASModel.java:421-443 | the working copy is made and the levels to be detected are cleared as `ClearForRun` says. The result is whether structure detection runs. Without a similarity matrix it fails before clearing |

## Left out

- Swing dialogs, the progress dialog, `JOptionPane` prompts and the user's answer to the frame-size advice are user interface. Only the advice rule (`FrameSizeAdvice`) is modelled.
- The segmentation and transcoding background tasks, threads, `join` and the busy-wait in `calculateWithDefaults` are concurrency and plumbing.
- `AudioDispatcher`, `MFCC`, `ConstantQ`, `AutoCorrelation` and audio transcoding are external DSP and I/O. The vectors they deliver are inputs (`FrameFeatures`), and an audio file is its length and sample rate (`AudioFile`).
- `NoveltyScore` and `StructureDetection` are the project's own classes, in other files than `AASModel.java`, and are outside the scope of this model. `FinishCalculation` returns whether detection would run.
- `calculate` and `calculateWithDefaults` are not one method here. Their steps are modelled separately: `StartExtraction`, `ExtractFrames`, `ConstructSelfSimilarityMatrix`, `FinishCalculation`, `FrameSizeAdvice` and `FrameCountWithDefaults`.
- Configuration persistence, listener fan-out, the `getInstance` singleton, `Player`, `System.gc`, `cleanMemory` and the getters are not core.
- `samplesPerPixel` uses floating-point `Math.log` and `Math.pow` and is not modelled.
- Float rounding, NaN and infinities are not modelled: every float is a real.
- 32-bit `int` wrap-around is not modelled: the frame counts and the divisions are on unbounded integers.
- `MAX_SCALE_VALUE` is a mutable static field in the source. It is modelled as the constant 1000.
- `Model.AASModel.StartExtraction`: a zero frame step makes the amount of frames `INT_MAX`, and the model allocates tables of that length. The source would run out of memory there, which is not modelled.
- `Model.AASModel.ConstructSelfSimilarityMatrix`: a frame the extractor never delivered is a null row in Java and an empty vector here. For constant-Q, Java throws on such a row, while the model computes a distance of 0 for it.
- `SelfSimilarity.Coefficient`: with no kind enabled the source's float division gives infinity, and the model returns 0. The value is never used, because the blend then subtracts nothing.
- `Model.AASModel.SetNewAudioFile`: with the GUI, the model treats the file hand-over and the audio-file change as one step. It does not model when the progress dialog fires them.
