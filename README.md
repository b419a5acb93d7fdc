# Soulsurfer core, modelled in Dafny

Soulsurfer analyses a surf video. It samples frames from the video and measures joint angles on each one. It grades each measurement against ideal ranges and folds the per-frame errors into ranked session findings. It cuts a short highlighted clip around each finding's worst frame, and it asks a Gemini model for coaching feedback and follow-up chat. This project models the deterministic bookkeeping around the vision and language-model calls and proves what it promises:

- `BiomechanicalAnalysis` (`biomechanical_analyzer.dfy`): grading one frame's metrics against the ideal-range table.
- `ErrorAggregation` (`error_aggregator.dfy`), the session aggregator. It groups errors by metric and computes each group's statistics. It picks the worst frame and the overall severity by the 25 % rule. It sorts the findings by priority, stably.
- `ClipExtraction` (`clip_extractor.dfy`):
  - the metric-to-landmark table and the spotlight points;
  - the clip window;
  - the frame loop with its one-time thumbnail and the middle-frame fallback;
  - the output names;
  - the `(None, None)` failure paths;
  - `extract_all_clips`.
- `VideoProcessing` (`video_processor.dfy`): the metadata and the sampling generator of `extract_frames`.
- `FrameEnhancement` (`frame_enhancer.dfy`): the stage order of `enhance`, the centre-crop arithmetic of the zoom, the kernel sizes and sigmas `cv2.GaussianBlur` accepts, and the lazily created CLAHE object.
- `SessionStorage` (`session_store.dfy`): the in-memory session table, a class whose `map` field the methods update.
- `FeedbackGeneration` (`feedback_generator.dfy`): the error summary, the prompt layout, the chat conversation, and the retry loop around the Gemini client. The client is an oracle.

Supporting modules:
- `Schemas`: the records.
- `PyBuiltins`: Python's `int()` on floats, `join`, `split`, `replace`, `title`, `strip` emptiness and `str()` of integers.
- `OpenCv`: symbolic images, captures, writers and an effect log.
- `StableSort`: Python's stable `list.sort` with a key.
- `Folds`: sums and counts.
- `Arithmetic`: small arithmetic facts.

Design choices:
- Where the source updates state in place, the model is a class: the session store, the frame enhancer, the clip extractor with its capture and writer handles, the Gemini client and the feedback generator.
- Loops become methods proved against a specification function.
- The properties are stated on those functions.

## Model

| member | source | states |
|---|---|---|
| BiomechanicalAnalysis.SeverityMonotone | app/services/biomechanical_analyzer.py:13-18 | when the medium threshold is at most the high one, a larger deviation never gets a lower severity |
| BiomechanicalAnalysis.DefaultGrading | app/services/biomechanical_analyzer.py:13-18 | with no thresholds configured the cut-offs are 15 (medium) and 30 (high), both inclusive |
| BiomechanicalAnalysis.Deviation | app/services/biomechanical_analyzer.py:31-36 | no deviation exactly when the value lies in the closed range; otherwise min − value below the range, value − max above it, always positive |
| BiomechanicalAnalysis.EntryError | app/services/biomechanical_analyzer.py:24-52 | an error exactly for a metric with a range and a value outside it, carrying the metric, value, range bounds, deviation, frame number, timestamp and graded severity |
| BiomechanicalAnalysis.AnalyzeFrame | app/services/biomechanical_analyzer.py:20-55 | the loop returns the errors of the frame's metrics in iteration order (`FrameErrors`) |
| BiomechanicalAnalysis.ErrorsOfMembership | app/services/biomechanical_analyzer.py:23-52 | an error is reported if and only if some metric entry of the frame produces it |
| BiomechanicalAnalysis.ErrorsOfNames | app/services/biomechanical_analyzer.py:23-25 | every reported error names a metric of the frame |
| BiomechanicalAnalysis.AtMostOneErrorPerMetric | app/services/biomechanical_analyzer.py:23-52 | a frame with distinct metric names yields at most one error per metric |
| ErrorAggregation.MetricsOf | app/services/error_aggregator.py:16-22 | the group keys are distinct and each has a non-empty group |
| ErrorAggregation.GroupMembership | app/services/error_aggregator.py:16-18 | an error is in the group of `m` exactly when it is an input error with metric `m` |
| ErrorAggregation.MetricsOfComplete | app/services/error_aggregator.py:16-22 | every metric with errors becomes a group key |
| ErrorAggregation.MaxDeviation | app/services/error_aggregator.py:25-53 | `max(deviations)` bounds every deviation and is attained |
| ErrorAggregation.MinTimestamp | app/services/error_aggregator.py:26-57 | `min(timestamps)` is a lower bound that is attained |
| ErrorAggregation.MaxTimestamp | app/services/error_aggregator.py:26-58 | `max(timestamps)` is an upper bound that is attained |
| ErrorAggregation.FirstIndexOf | app/services/error_aggregator.py:29 | `list.index` finds the first position holding the value |
| ErrorAggregation.FindingsOf | app/services/error_aggregator.py:22-65 | one finding per group key |
| ErrorAggregation.Aggregate | app/services/error_aggregator.py:12-77 | the method returns `Aggregated`: empty for no errors or zero frames, else the findings sorted by descending priority |
| ErrorAggregation.GroupByMetric | app/services/error_aggregator.py:16-18 | the grouping loop builds one entry per distinct metric, in first-seen order, holding exactly that metric's errors in input order |
| ErrorAggregation.SummarizeAll | app/services/error_aggregator.py:20-65 | the per-metric loop appends, key by key, the findings `FindingsOf` describes |
| ErrorAggregation.SummarizeGroup | app/services/error_aggregator.py:23-64 | the per-group loop computes the finding `Summarize` describes |
| ErrorAggregation.CountSeverities | app/services/error_aggregator.py:34-36 | the counting loop gives every severity the number of errors that carry it (0 for absent ones) |
| ErrorAggregation.ScanTiers | app/services/error_aggregator.py:38-42 | the tier scan picks the severity `OverallSeverity` defines: the first of HIGH, MEDIUM, LOW above a quarter, else LOW |
| ErrorAggregation.QuarterShare | app/services/error_aggregator.py:40 | `count / len > 0.25` holds exactly when `4 * count > len` |
| ErrorAggregation.SeverityCountsPartition | app/services/error_aggregator.py:34-36 | the HIGH, MEDIUM and LOW counts add up to the group size |
| ErrorAggregation.OverallSeverityQualifies | app/services/error_aggregator.py:38-42 | the chosen severity holds more than a quarter of the group and no higher severity does, so some tier always qualifies |
| ErrorAggregation.OverallSeverityReordered | app/services/error_aggregator.py:23-42 | sorting the group changes neither the severity counts nor the chosen severity |
| ErrorAggregation.SummaryBounds | app/services/error_aggregator.py:25-59 | max deviation bounds and is attained; first/last timestamps are the attained min/max; duration = last − first ≥ 0 |
| ErrorAggregation.SummaryMeanAtMostMax | app/services/error_aggregator.py:52-53 | average deviation ≤ max deviation |
| ErrorAggregation.SummaryWorstFrame | app/services/error_aggregator.py:23-63 | on the frame-sorted group the worst frame has the maximal deviation and the smallest frame number among ties; ideal bounds come from the first frame |
| ErrorAggregation.WorstOfSorted | app/services/error_aggregator.py:23-30 | on a frame-sorted group, `errors[deviations.index(max(deviations))]` is a member with the maximal deviation and the lowest frame number among those; the first error has the lowest frame number |
| ErrorAggregation.FindingsOfAt | app/services/error_aggregator.py:22-65 | finding `i` summarises group `i` sorted by frame number |
| ErrorAggregation.FindingsOfPrefix | app/services/error_aggregator.py:65 | appending a finding leaves the earlier ones unchanged |
| ErrorAggregation.FindingOfMetric | app/services/error_aggregator.py:13-65 | every output finding is the summary of its metric's sorted group |
| ErrorAggregation.SortedGroupMembers | app/services/error_aggregator.py:23 | sorting a group is a permutation of it |
| ErrorAggregation.FindingSummarizesItsMetric | app/services/error_aggregator.py:22-64 | each finding: count = group size, total = constructor value, frequency = count/total·100, averages are means, avg ≤ max, timestamp span, worst frame (lowest frame number among ties), severity rule |
| ErrorAggregation.FindingPerMetric | app/services/error_aggregator.py:13-22 | empty output for no errors or zero frames; otherwise a finding for `m` exists exactly when an error for `m` does |
| ErrorAggregation.FindingShare | app/services/error_aggregator.py:54-56 | frame count is the group size and frequency is count/total·100 |
| ErrorAggregation.ErrorForFinding | app/services/error_aggregator.py:16-22 | every finding comes from an input error |
| ErrorAggregation.FindingForError | app/services/error_aggregator.py:16-22 | every input error's metric has a finding (non-zero total) |
| ErrorAggregation.OneFindingPerMetric | app/services/error_aggregator.py:16-65 | no metric appears twice in the output |
| ErrorAggregation.RankedByPriority | app/services/error_aggregator.py:7-75 | the output is non-increasing in weight × frequency × avg deviation, and findings of equal priority keep discovery order |
| ErrorAggregation.GroupOfAppend | app/services/error_aggregator.py:17-18 | grouping distributes over concatenation |
| ErrorAggregation.GroupOfNoRepeat | app/services/error_aggregator.py:17-18 | a frame's errors add at most one member to each group |
| ErrorAggregation.GroupOfNone | app/services/error_aggregator.py:17-18 | no errors for `m` means an empty group |
| ErrorAggregation.SessionGroupAtMostFrames | app/services/error_aggregator.py:54 | over a session's frames each group has at most one error per frame |
| ErrorAggregation.ShareAtMostHundred | app/services/error_aggregator.py:56 | `0 < count ≤ total` gives a frequency in (0, 100] |
| ErrorAggregation.FrequencyAtMostHundred | app/services/error_aggregator.py:54-56 | for errors produced by the analyser over `n` frames, every finding's frequency lies in (0, 100] |
| ErrorAggregation.ThreeErrorsExample | tests/test_error_aggregator.py:84-93 | deviations 10, 20, 30 give one finding with average 20, max 30, three frames, 100 %, worst frame 2 |
| ErrorAggregation.ThreeErrorsGrouping | tests/test_error_aggregator.py:84-93 | the three errors form one group that is already in frame order |
| ErrorAggregation.ThreeErrorsSummary | tests/test_error_aggregator.py:84-93 | the summary of that group has the expected statistics |
| ErrorAggregation.ThreeErrorsDeviations | tests/test_error_aggregator.py:84-93 | the deviations sum to 60, their maximum is 30 and the worst error is the one at frame 2 |
| ErrorAggregation.ThreeErrorsSeverities | tests/test_error_aggregator.py:84-93 | none of the three errors is HIGH and all three are MEDIUM |
| ErrorAggregation.ThreeErrorsMean | tests/test_error_aggregator.py:92 | the average deviation is 20 |
| ErrorAggregation.ThreeErrorsFrequency | tests/test_error_aggregator.py:85-91 | three errors over three analysed frames give frequency 100 % |
| ErrorAggregation.EveryFrameFrequency | app/services/error_aggregator.py:54-56 | a group with one error per analysed frame has frequency exactly 100 % |
| StableSort.SortBySortedPermutation | app/services/error_aggregator.py:23-75 | `list.sort(key=…)` yields a sorted permutation |
| StableSort.SortByStable | app/services/error_aggregator.py:23-75 | elements with equal keys keep their relative order |
| StableSort.SortByDistinct | app/services/error_aggregator.py:65-75 | sorting keeps distinct metrics distinct |
| ClipExtraction.ClipExtractor.constructor | app/services/clip_extractor.py:50-59 | stores duration and output directory and creates the directory |
| ClipExtraction.ClipExtractor.GetLandmarkPixelCoords | app/services/clip_extractor.py:61-76 | the loop returns `PixelCoords` |
| ClipExtraction.PixelCoordsAppend | app/services/clip_extractor.py:69-76 | points for `a + b` are those for `a` then those for `b` (index order) |
| ClipExtraction.PixelCoordsLength | app/services/clip_extractor.py:69-76 | at most one point per index; with every index in range exactly one, `k`-th point from the `k`-th index |
| ClipExtraction.PixelCoordsMembers | app/services/clip_extractor.py:70-75 | a point is returned exactly when some in-range index maps to it; out-of-range indices are skipped |
| ClipExtraction.ClipExtractor.ComputeSpotlightCoords | app/services/clip_extractor.py:78-106 | the method returns `SpotlightCoords` |
| ClipExtraction.SpotlightCoordsCases | app/services/clip_extractor.py:31-106 | `[]` for an unmapped metric; for `spinal_angle` the shoulder midpoint then the hip midpoint, or an IndexError on fewer than 25 landmarks; other metrics take their mapped landmarks |
| ClipExtraction.ClipExtractor.Highlight | app/services/clip_extractor.py:200-207 | the method returns `Highlighted` |
| ClipExtraction.HighlightedCases | app/services/clip_extractor.py:200-207 | an error only from the spotlight lookup; an unchanged frame without landmarks or points; otherwise the spotlight at the non-empty points |
| ClipExtraction.WindowTimes | app/services/clip_extractor.py:163-169 | start ≥ 0 and end ≤ duration always; start ≤ centre ≤ end when 0 ≤ centre ≤ duration and the clip duration is ≥ 0 |
| ClipExtraction.WindowStartFrame | app/services/clip_extractor.py:166-171 | 0 ≤ start frame ≤ the centre's frame |
| ClipExtraction.WindowEndFrame | app/services/clip_extractor.py:163-172 | the centre's frame ≤ end frame ≤ total frames |
| ClipExtraction.LoopStops | app/services/clip_extractor.py:195-198 | past the end frame or at a failed read the loop writes nothing more |
| ClipExtraction.LoopFails | app/services/clip_extractor.py:201-243 | an exception while highlighting ends the loop with a failure |
| ClipExtraction.ClipExtractor.OpenWriter | app/services/clip_extractor.py:180-189 | the writer opens exactly when `avc1` or, failing that, `mp4v` is available; nothing is written, and one handle is held only for an opened writer |
| ClipExtraction.ClipExtractor.CopyFrames | app/services/clip_extractor.py:191-216 | the loop writes exactly `FrameLoop`'s effects and reports its thumbnail flag and failure |
| ClipExtraction.ClipExtractor.RenderClip | app/services/clip_extractor.py:191-232 | the frame loop and the middle-frame fallback append exactly `FrameLoop`'s writes and, when no thumbnail was saved and nothing failed, the fallback's image; it fails exactly when the loop or the fallback raises |
| ClipExtraction.LoopFrames | app/services/clip_extractor.py:194-209 | the `k`-th written frame goes to the clip file and is frame `current + k`, highlighted |
| ClipExtraction.LoopFrameCount | app/services/clip_extractor.py:194-216 | without failure it writes every frame from `current` up to the end frame or the last decodable one; a failure happens at a frame in that range |
| ClipExtraction.LoopThumbnail | app/services/clip_extractor.py:211-214 | at most one thumbnail; none once saved; the flag ends true exactly if saved before or written now; a written one is the highlighted worst frame |
| ClipExtraction.LoopThumbnailReached | app/services/clip_extractor.py:194-214 | conversely, a loop that runs through the worst frame without an exception writes exactly that frame, highlighted, as the thumbnail |
| ClipExtraction.ClipExtractor.SaveMiddleThumbnail | app/services/clip_extractor.py:218-232 | the fallback writes `FallbackThumbnail`'s image to the thumbnail path when the middle frame decodes |
| ClipExtraction.ClipExtractor.ExtractClip | app/services/clip_extractor.py:133-248 | returns `ExtractedClip`'s paths, appends its writes to the log, and releases every handle it opened |
| ClipExtraction.ExtractedClipPaths | app/services/clip_extractor.py:152-239 | both paths or neither; success gives `/clips/{sid}_{metric}_clip.mp4` and `_thumb.jpg`; an unopenable video or no codec gives `(None, None)` and no writes |
| ClipExtraction.ExtractedClipFailure | app/services/clip_extractor.py:91-243 | with the video open and a codec, `(None, None)` comes only from `spinal_angle` with a short landmark list |
| ClipExtraction.ExtractedClipFrames | app/services/clip_extractor.py:191-216 | the `k`-th frame written goes to the clip file and is frame `start_frame + k`, highlighted |
| ClipExtraction.ExtractedClipThumbnail | app/services/clip_extractor.py:211-232 | `ThumbnailRule`: at most one thumbnail, to the thumbnail file; when the loop runs through the worst frame without an exception it is exactly that frame, highlighted; when the loop ends short of it, exactly the highlighted middle frame if that decodes and none otherwise; after an exception at most the worst frame; nothing without a video or codec |
| ClipExtraction.ExtractedClipWrites | app/services/clip_extractor.py:191-232 | frames are written consecutively from the start frame, highlighted, to the clip file (`FramesFrom`), and the thumbnail follows `ThumbnailRule`: the worst frame whenever the loop reaches it, the middle frame only otherwise |
| ClipExtraction.ClipExtractor.ExtractAllClips | app/services/clip_extractor.py:250-273 | the loop returns `AllClips` and appends its writes to the log |
| ClipExtraction.AllClipsShape | app/services/clip_extractor.py:260-273 | same length and order; each error differs from its input only in `clip_path`/`thumbnail_path`, which are what `extract_clip` returned |
| VideoProcessing.FrameSkip | app/services/video_processor.py:53 | `max(1, int(fps/target))` is ≥ 1; division by a zero target raises |
| VideoProcessing.VideoProcessor.constructor | app/services/video_processor.py:28-30 | stores the target rate and the enhancer |
| VideoProcessing.VideoProcessor.GetMetadata | app/services/video_processor.py:32-46 | returns `MetadataResult` and leaves no handle open |
| VideoProcessing.MetadataDuration | app/services/video_processor.py:41 | duration × fps = frame count when fps > 0, else duration 0 |
| VideoProcessing.VideoProcessor.ExtractFrames | app/services/video_processor.py:48-76 | yields the stream `Extraction` describes and releases every capture on every path |
| VideoProcessing.VideoProcessor.SampleFrames | app/services/video_processor.py:58-76 | the read loop yields the stream `Sampled` describes from frame 0 (every `skip`-th frame, converted and enhanced, timestamp `n / fps`) and releases the capture |
| VideoProcessing.ExtractionOutcome | app/services/video_processor.py:49-67 | the stream fails only before its first frame: cannot open, fps ≤ 0, zero target, or an enhancer rejecting the first frame |
| VideoProcessing.SampledFramesAreSampled | app/services/video_processor.py:58-73 | every yielded frame is a multiple of the skip, decodable, stamped `index/fps`, with the processed image |
| VideoProcessing.SampledFramesInOrder | app/services/video_processor.py:58-74 | frame numbers increase strictly and no sampled index is skipped |
| VideoProcessing.SampledFramesComplete | app/services/video_processor.py:58-74 | without failure every sampled decodable index is yielded |
| VideoProcessing.SampledFailure | app/services/video_processor.py:66-67 | a failing stream has yielded nothing; the failure is the enhancer's |
| VideoProcessing.ProcessedUniform | app/services/video_processor.py:65-67 | the enhancer accepts every decoded frame or none |
| VideoProcessing.FrameNumberAt | app/services/video_processor.py:58-74 | from the start, the `k`-th yielded frame is frame `k·skip` |
| VideoProcessing.SampledFromStart | app/services/video_processor.py:58-74 | `k`-th frame is `k·skip` at `k·skip/fps`; the count is ⌈decodable/skip⌉ |
| VideoProcessing.SampleRateNearTarget | app/services/video_processor.py:53 | with fps ≥ target the kept rate lies in [target, 2·target); below target every frame is kept |
| FrameEnhancement.FrameEnhancer.constructor | app/services/frame_enhancer.py:31-33 | `config or EnhancementConfig()`, no CLAHE object yet |
| FrameEnhancement.FrameEnhancer.ApplyClahe | app/services/frame_enhancer.py:94-117 | creates the CLAHE object only on first use and reuses it |
| FrameEnhancement.FrameEnhancer.Enhance | app/services/frame_enhancer.py:35-51 | returns `Enhanced` (zoom, contrast, sharpen, each when enabled) and holds a CLAHE object once a contrast pass has run, that is whenever contrast is enabled and the zoom succeeded |
| FrameEnhancement.EnhanceFails | app/services/frame_enhancer.py:35-92 | `enhance` raises exactly when the zoom leaves an empty crop or the sharpen stage runs with a kernel size `cv2.GaussianBlur` refuses (an even positive size, or a size that is not positive with a sigma that is not positive either); the zoom's error comes first |
| FrameEnhancement.AllDisabledIsIdentity | app/services/frame_enhancer.py:44-51 | all stages off returns the input |
| FrameEnhancement.ZoomRatioOneIsIdentity | app/services/frame_enhancer.py:63-64 | a ratio ≥ 1 leaves the frame unchanged |
| FrameEnhancement.ZoomBoxInside | app/services/frame_enhancer.py:67-73 | for 0 ≤ ratio < 1 the crop lies inside the image and is centred within one pixel |
| FrameEnhancement.ZoomFailsOnlyOnEmptyCrop | app/services/frame_enhancer.py:67-76 | the zoom fails exactly when `h·ratio` or `w·ratio` is below one pixel |
| FrameEnhancement.ZoomErrIffEmptyBox | app/services/frame_enhancer.py:73-76 | the resize fails exactly on an empty crop |
| FrameEnhancement.EmptyBoxExactly | app/services/frame_enhancer.py:67-68 | the crop is empty exactly when the ratio is too small for one row or column |
| FrameEnhancement.EnhancePreservesSize | app/services/frame_enhancer.py:76 | an enhanced frame has the input's height and width |
| FrameEnhancement.DefaultEnhancement | app/services/frame_enhancer.py:11-21 | with the defaults a 100×200 frame is centre-cropped to 60×120, resized back and unsharp-masked (5, 1.0, 1.5), without CLAHE |
| SessionStorage.Created | app/storage/session_store.py:20-31 | a PENDING record with no report, no error and empty history replaces any record under the id; others unchanged |
| SessionStorage.StatusUpdated | app/storage/session_store.py:41-47 | no-op on an unknown id; else the status is set and the error message overwritten only by a non-empty one; nothing else changes |
| SessionStorage.ReportSaved | app/storage/session_store.py:49-52 | no-op on an unknown id; else report stored and status COMPLETED; nothing else changes |
| SessionStorage.ChatAppended | app/storage/session_store.py:54-64 | no-op on an unknown id; else the history grows by the user message then the assistant reply; nothing else changes |
| SessionStorage.RecordUpdatesKeepWellFormed | app/storage/session_store.py:13-52 | create, update and save keep every record under its own id with a history of user/assistant pairs |
| SessionStorage.ChatAppendedWellFormed | app/storage/session_store.py:58-64 | appending a pair keeps histories made of user/assistant pairs |
| SessionStorage.HistoryAfterAppend | app/storage/session_store.py:58-71 | the history read after `append_chat` is the old one plus the new pair, or empty for an unknown id |
| SessionStorage.CreateClearsHistory | app/storage/session_store.py:20-31 | a newly created session has an empty history even if the id existed |
| SessionStorage.SessionStore.constructor | app/storage/session_store.py:10-11 | the table starts empty |
| SessionStorage.SessionStore.Create | app/storage/session_store.py:13-39 | the table becomes `Created` and the response echoes the record |
| SessionStorage.SessionStore.UpdateStatus | app/storage/session_store.py:41-47 | the table becomes `StatusUpdated` |
| SessionStorage.SessionStore.SaveReport | app/storage/session_store.py:49-52 | the table becomes `ReportSaved` |
| SessionStorage.SessionStore.AppendChat | app/storage/session_store.py:54-64 | the table becomes `ChatAppended` |
| SessionStorage.SessionStore.GetChatHistory | app/storage/session_store.py:66-71 | the stored history, or `[]` for an unknown id |
| SessionStorage.SessionStore.Get | app/storage/session_store.py:73-74 | `None` for an unknown id, else the stored record |
| FeedbackGeneration.DisplayNameShape | app/services/feedback_generator.py:143 | the display name keeps the length; each `_` becomes a space; a letter is lowered after a letter and raised at the start of a word (`.title()`); no `_` is left, and a line break appears only where the metric has one |
| FeedbackGeneration.DisplayNameAt | app/services/feedback_generator.py:143 | the same per-character rule at one position |
| FeedbackGeneration.DisplayNameExample | tests/test_feedback_generator.py:106-114 | `left_knee_angle` is shown as "Left Knee Angle" |
| FeedbackGeneration.LeftKneeAngleName | tests/test_feedback_generator.py:106-114 | the same fact for any string equal to `left_knee_angle` |
| FeedbackGeneration.ErrorsSummaryLines | app/services/feedback_generator.py:137-145 | the fixed sentence for no errors; otherwise `Issues found:\n` followed by exactly one `- Name (sev severity)` line per error, in order |
| FeedbackGeneration.ErrorDetails | app/services/feedback_generator.py:113-126 | each error has seven detail lines |
| FeedbackGeneration.ErrorBlock | app/services/feedback_generator.py:111-127 | a block is nine lines: `Error #n: metric`, the details, a blank line |
| FeedbackGeneration.ErrorBlocksShape | app/services/feedback_generator.py:111-127 | block `k` is numbered `k + 1` (`enumerate(errors, 1)`) |
| FeedbackGeneration.PromptProfile | app/services/feedback_generator.py:102-106 | the `Surfer:` and `Skill Level:` lines appear exactly for non-empty values, in that order |
| FeedbackGeneration.PromptErrors | app/services/feedback_generator.py:107-133 | the errors are numbered 1..n in input order, nine lines apart after the header; the prompt ends with the "no errors" line exactly when there are none |
| FeedbackGeneration.DeliveredText | app/services/feedback_generator.py:178-189 | the returned text starts with the response text and carries the follow-up note exactly when the finish reason is MAX_TOKENS |
| FeedbackGeneration.RetryCases | app/services/feedback_generator.py:154-205 | one or two calls; the first usable answer is returned; otherwise an exception on the last attempt gives "Gemini API error: …" and an empty answer gives "Gemini returned empty response after 2 attempts" |
| FeedbackGeneration.GeminiClient.GenerateContent | app/services/feedback_generator.py:158-165 | the `k`-th call records its request and gets the `k`-th answer |
| FeedbackGeneration.FeedbackGenerator.constructor | app/services/feedback_generator.py:92-94 | stores the client and the model name |
| FeedbackGeneration.FeedbackGenerator.CallGemini | app/services/feedback_generator.py:147-205 | the outcome is `Retry`'s, and exactly `Retry`'s number of identical requests is sent |
| FeedbackGeneration.FeedbackGenerator.GenerateFeedback | app/services/feedback_generator.py:207-220 | sends the errors prompt with the feedback system prompt and 8192 tokens |
| FeedbackGeneration.HistoryTurns | app/services/feedback_generator.py:260-268 | one turn per stored message, in order |
| FeedbackGeneration.HistoryRoles | app/services/feedback_generator.py:262 | a stored `assistant` message becomes a `model` turn, any other role a `user` turn, with its text kept |
| FeedbackGeneration.ChatContents | app/services/feedback_generator.py:244-276 | `3 + len(history)` turns: user opening request, model feedback, the history, user new message |
| FeedbackGeneration.ChatTurns | app/services/feedback_generator.py:244-276 | the loop builds exactly `ChatContents` |
| FeedbackGeneration.HistoryTurnsAppend | app/services/feedback_generator.py:261-268 | converting history turns distributes over concatenation |
| FeedbackGeneration.FeedbackGenerator.Chat | app/services/feedback_generator.py:222-282 | sends `ChatContents` with the chat instruction (profile lines and error summary) and 4096 tokens, with `_call_gemini`'s outcome |

## Left out

- Python's `round(x, n)` in the analyser and the aggregator is not modelled. Measured values, deviations, averages, frequencies and timestamps stay unrounded reals. Every statement about them is about the unrounded values.
- Floats are Dafny reals, so there is no binary floating-point error in `total / fps`, `fps / target_fps` or the clip window.
- `int()` on a float is modelled as truncation toward zero (`PyBuiltins.Trunc`).
- FeedbackGeneration.ErrorDetails: Python's `str()` of a float is the parameter `repr`. Only the fixed text around the numbers is modelled.
- Python's `str.title` is modelled for ASCII letters only. Other scripts' case mappings are not modelled.
- FrameEnhancement.Contrast: what OpenCV does with a CLAHE tile grid size that is not positive is not modelled; the contrast pass is total in the model. Of OpenCV's argument checks only the kernel-size check of `cv2.GaussianBlur` is modelled (`BlurKernelValid`).
- The pixel work of OpenCV is not modelled: colour conversion, Gaussian blur, `addWeighted`, CLAHE, resize, and the circles of `_draw_spotlight`. Each is a free constructor of the symbolic `Image`, so only which kernel runs on which frame, with which parameters, is checked. The `SpotlightConfig` style values are not modelled.
- `VideoCapture` is modelled as the container's reported properties plus the number of frames that actually decode. A read succeeds exactly inside that range, so seeking outside it just fails the next read.
- The `VideoWriter` fps and frame size arguments are not modelled. A writer opens exactly when its codec is available.
- ClipExtraction.ExtractClip: the only exception modelled inside the `try` is the IndexError of `spinal_angle` on a short landmark list. Other OpenCV or file-system exceptions are foreign and not modelled. Logging is left out.
- VideoProcessing.VideoProcessor.ExtractFrames: the generator is modelled as a whole run, as the frames it yields plus the error that stops it. Laziness, and a consumer stopping early, are not modelled. The second `isOpened` check (video_processor.py:55-56) is unreachable in the model, because a file does not change between the two opens, so that check is omitted.
- SessionStorage.SessionStore.Get: the record is returned as a value. Python returns the stored dict itself, and the aliasing that allows is not modelled. `get_chat_history`'s fresh copy is likewise a value.
- The clock (`datetime.now`) is a parameter `now`; timestamps are integers.
- The Gemini client is an oracle, `answer(k)` for the `k`-th call. Its network behaviour, its SDK types and what `response.text` does internally are not modelled. The texts of `SYSTEM_PROMPT` and `CHAT_SYSTEM_PROMPT` are not modelled, only which one is sent.
- app/services/angle_calculator.py and app/services/pose_estimator.py are not part of this model: they are floating-point geometry and a MediaPipe wrapper.
- app/services/pipeline.py, the FastAPI endpoints, app/main.py, app/config.py and app/core/exceptions.py are not part of this model: they are orchestration of foreign calls, HTTP and settings.
