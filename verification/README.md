# Verified models of the multimodal pipeline, latent reasoning and tooling

A Dafny model of four parts of the repository, with proofs about every input, every history or every
reachable state.

**Qwen3-Omni segment arithmetic.** `MediaRow` describes rows of text and media segments. `Processor` expands
markers into one token per encoder row; `RopeIndex` and `RopeLoop` assign three-axis positions to those
rows, `RopePoints` reads every position off the inputs, `RopeOrder` and `RopeRowOrder` say how positions are ordered, `RopeDelta` covers batches and decoding.
`AudioLengths` and `AudioPacking` follow the audio encoder's chunks, valid rows, attention windows and the
scatter into embeddings; `ProcessorAgreement` shows that the parts agree on counts and order. `Experts` is
the grouped expert dispatch, `Vocoder` the convolution lengths and chunked decoding.

**Latent reasoning.** `Compression`, `CompressionPoints`, `CompressBatch` and `CompressionLaw` rebuild a row into prefix, pooled
groups and answer and line up masks and targets. `LruOrder` and `ScheduledSampling` are the bounded cache of
shifted predictions. `QueryAnchor` compares the anchors of training and inference, `Generation` is the
generation loop.

**Experiment scheduler.** `Scheduler` is a state machine whose environment decides when processes exit,
`SchedulerPoll` one return of the polling loop, `SchedulerProgress` what a workload keeps through both loops,
`SchedulerStory` what the process table tells about every experiment,
`SchedulerEndings` which way the main loop ends, and `SchedulerManager` the manager's methods over mutable state.

**Tool calls.** `Scanner`, `Dsml`, `DsmlRoundTrip`, `DsmlReading`, `DsmlNecessity` and `DsmlTemplate` are the DSML printer and its
first-occurrence parser. `Wrappers` and `Sequences` hold two shared definitions.

## Where the code differs from what one might expect

- The next segment starts above the last block only. After an audio-in-video segment it can start below an
  earlier coordinate; `RopeRowOrder.RowClearIff` gives the exact condition.
- The audio index stride matches the convolution only for windows of at most 100 frames, and chunk lengths add
  up only for multiples of 100; the default `n_window` of 100 gives a window of 200.
- Each decoder block of the vocoder yields one frame too few, so chunked decoding loses 555 samples per chunk
  with the default rates.
- A padded text-only row with fewer than two attended tokens decodes from a shifted position.
- A turn end as a row's very first token separates the anchors of training and inference.
- At compression ratio one the latent mask misses the last prefix token when no newline follows the opening tag.
- In the scheduler, an assertion error other than a shortage of GPUs retries the head for ever, polling with
  nothing running never returns, and a process that exits between scan and sweep is dropped unrecorded. The
  model has all three; `Begin` reports the first two as endings because a model must terminate. `Forecast` says
  which ending a workload has: it retries for ever exactly when some first training run fits the machine but
  fails an assertion while its command is assembled; otherwise it polls for ever exactly when some first training
  run asks for more GPUs than there are, or when there are experiments and every record is complete, as on a plain
  rerun; otherwise it finishes.
- JSON is written without escaping non-ASCII characters, so a JSON argument can hold a closing tag of the format;
  `DsmlNecessity.RoundTripIff` shows that it is then always lost.

## Model

| member | source | states |
|---|---|---|
| RopeLoop.RopeRow | qwen3omni_model/modeling_qwen3_omni_moe.py:308-444 | the cursor loop over one row returns exactly the block list `Walk` defines, one position per token, and leaves the cursors after the inputs its segments used; when positions per second are not negative, every position is the one `Laid` reads off the inputs: text and markers count up from the place where the last segment ended, patch x of row y of frame f is (f times the rate, y, x) above the segment's start, audio counts up from it |
| RopeLoop.AppendItem | qwen3omni_model/modeling_qwen3_omni_moe.py:340-439 | one pass of the loop body appends text, opening markers, segment and closing markers, and moves on by exactly the item's tokens |
| RopeLoop.AppendSegment | qwen3omni_model/modeling_qwen3_omni_moe.py:354-437 | the branch taken is the kind of segment at the nearest marker; it adds that segment's blocks, consumes its inputs, and its width is the segment's tokens without the markers |
| RopeLoop.AppendMerged | qwen3omni_model/modeling_qwen3_omni_moe.py:411-429 | the two-cursor loop appends the merge of video and audio positions, video first on ties, remainders as one block |
| RopeLoop.NextMarkers | qwen3omni_model/modeling_qwen3_omni_moe.py:330-340 | the two `index` searches, guarded by the remaining counts, find the next segment and its kind, or a sentinel past the end |
| RopeLoop.RowCounts | qwen3omni_model/modeling_qwen3_omni_moe.py:311-320 | the counts of vision-start successors and audio starts are the numbers of image, video and audio segments of the row |
| RopeLoop.SegmentCount | qwen3omni_model/modeling_qwen3_omni_moe.py:325-328 | the loop bound is the number of segments, in either audio-in-video mode |
| RopeLoop.BetweenNext | qwen3omni_model/modeling_qwen3_omni_moe.py:328-439 | between passes: unread tokens are the row of the remaining items, and as many positions are assigned as tokens were read |
| RopeLoop.CursorCounts | qwen3omni_model/modeling_qwen3_omni_moe.py:307-307 | after any items each cursor has advanced by the number of segments of its kind: the k-th segment takes the k-th input |
| RopeIndex.OnePositionPerToken | qwen3omni_model/modeling_qwen3_omni_moe.py:321-446 | for every row of text, audio, image, video and audio-in-video segments in any order there is exactly one position per token |
| RopeIndex.AddItemWidth | qwen3omni_model/modeling_qwen3_omni_moe.py:340-439 | one item adds one position for each of its tokens |
| RopeIndex.MediaWidth | qwen3omni_model/modeling_qwen3_omni_moe.py:354-437 | a segment's positions are as many as its tokens less the markers |
| RopeIndex.GridWidth | qwen3omni_model/modeling_qwen3_omni_moe.py:163-181 | with grids divisible by the merge size, frames x rows x columns equals the token count computed by `prod() // merge**2` |
| RopeIndex.VisionAt | qwen3omni_model/modeling_qwen3_omni_moe.py:163-181 | vision positions are numbered frame by frame, row by row: each patch has its frame's time, its row and its column, all shifted by the start |
| RopeIndex.MergeWidth | qwen3omni_model/modeling_qwen3_omni_moe.py:411-429 | the merge has exactly as many positions as its two inputs still hold |
| RopeOrder.VisionSpans | qwen3omni_model/modeling_qwen3_omni_moe.py:163-181 | inside a vision block time never decreases, every coordinate is at least the start, and the last position is the largest on each axis |
| RopeOrder.MergeRises | qwen3omni_model/modeling_qwen3_omni_moe.py:411-429 | the merged temporal axis is sorted and starts no lower than its inputs |
| RopeOrder.MergeTail | qwen3omni_model/modeling_qwen3_omni_moe.py:411-429 | the last block of the merge is the tail of the input whose last position is later |
| RopePoints.VisionTimes | qwen3omni_model/processing_qwen3_omni_moe.py:246-254 | each vision position's time is its token's time plus the segment start |
| RopePoints.MergeVideoAt | qwen3omni_model/modeling_qwen3_omni_moe.py:411-429 | in a merged segment a video position stands behind the earlier ones and exactly the audio that is sooner |
| RopePoints.MergeAudioAt | qwen3omni_model/modeling_qwen3_omni_moe.py:411-429 | and an audio position behind the earlier ones and exactly the frames that have come by its time |
| RopePoints.SegmentIsLaid | qwen3omni_model/modeling_qwen3_omni_moe.py:354-429 | the positions of a segment of any of the four kinds, point by point from its grid, rate and audio length |
| RopePoints.SegmentReaches | qwen3omni_model/modeling_qwen3_omni_moe.py:338-438 | where the closing markers start: above the last frame, row or column of a grid, above the last audio position, and for audio in video above whichever input ends later |
| RopePoints.WalkIsLaid | qwen3omni_model/modeling_qwen3_omni_moe.py:328-446 | the whole row point by point, over any list of segments |
| RopeOrder.MergeClearIff | qwen3omni_model/modeling_qwen3_omni_moe.py:411-438 | after an audio-in-video segment the next start exceeds every coordinate of the segment exactly when the last frame is later than the audio or the merged grid fits within the audio length |
| RopeRowOrder.FilledClearIff | qwen3omni_model/modeling_qwen3_omni_moe.py:329-439 | the closing markers of a segment start above everything earlier in the row exactly under that condition |
| RopeRowOrder.RowClearIff | qwen3omni_model/modeling_qwen3_omni_moe.py:328-446 | over a whole row: every start clears everything before it exactly when every audio-in-video segment meets the condition |
| RopeRowOrder.TallFrameExample | qwen3omni_model/modeling_qwen3_omni_moe.py:438-439 | a one-frame 8x2 grid beside one audio position shows the next start falling below an earlier coordinate |
| RopeRowOrder.SegmentsAscend | qwen3omni_model/modeling_qwen3_omni_moe.py:328-446 | without audio-in-video every block lies strictly above every earlier block on all three axes |
| RopeRowOrder.PositionsAscend | qwen3omni_model/modeling_qwen3_omni_moe.py:328-446 | the same between any two positions of different blocks |
| RopeRowOrder.TimeNeverDecreases | qwen3omni_model/modeling_qwen3_omni_moe.py:328-446 | the temporal axis never decreases along any row |
| RopeDelta.RopeBatch | qwen3omni_model/modeling_qwen3_omni_moe.py:296-452 | rows share the media inputs in order; attended tokens get their row's positions, padding stays zero, and each delta is the largest position plus one less the attended count |
| RopeDelta.PlaceRow | qwen3omni_model/modeling_qwen3_omni_moe.py:308-449 | one row: filter by the mask, assign positions, scatter them back over zeros |
| RopeDelta.AttendedAt | qwen3omni_model/modeling_qwen3_omni_moe.py:308-310 | filtering by the mask puts each attended token behind the attended ones before it |
| RopeDelta.Positioner.Forward | qwen3omni_model/modeling_qwen3_omni_moe.py:2185-2206 | prefill takes the multimodal branch when there are image or video grids and the text-only one otherwise, audio-only rows included, and stores the delta less the padding; later calls leave it and number fed tokens from cached length plus delta |
| RopeDelta.TextBatch | qwen3omni_model/modeling_qwen3_omni_moe.py:453-460 | the text-only branch: running counts less one, 1 on padding, and a delta of the largest plus one less the attended count |
| RopeDelta.Positioner.Run | qwen3omni_model/modeling_qwen3_omni_moe.py:2185-2206 | a run of one prefill and any number of one-token steps on the growing cache: whatever the padding and the branch, row i gets at step k the largest position its own prefill assigned, plus one plus k, on all axes |
| RopeDelta.DecodeFollows | qwen3omni_model/modeling_qwen3_omni_moe.py:2198-2206 | one step of it: the positions and delta a prefill placed make the k-th decoded token follow that prefill's largest position |
| RopeDelta.TextRank | qwen3omni_model/modeling_qwen3_omni_moe.py:454-455 | in the text-only branch an attended token's position is the number of attended tokens before it |
| RopeDelta.TextMax | qwen3omni_model/modeling_qwen3_omni_moe.py:454-457 | the largest position of a text-only row, counting padding as 1 |
| RopeDelta.TextDecodeIff | qwen3omni_model/modeling_qwen3_omni_moe.py:454-460 | a text-only row decodes on from its attended tokens exactly when it has no padding or at least two of them |
| RopeDelta.TextDecodeExample | qwen3omni_model/modeling_qwen3_omni_moe.py:454-460 | one attended token and one padding: decoding starts at position 2, leaving out 1 |
| Processor.Interleave | qwen3omni_model/processing_qwen3_omni_moe.py:256-274 | the audio/video loop produces the interleave the specification defines, remainders included |
| Processor.InterleavedCounts | qwen3omni_model/processing_qwen3_omni_moe.py:256-274 | the interleave holds exactly the video tokens and the audio tokens |
| Processor.InterleavedVideoAt | qwen3omni_model/processing_qwen3_omni_moe.py:256-274 | a video token stands behind the earlier ones and exactly the audio tokens that are sooner |
| Processor.InterleavedAudioAt | qwen3omni_model/processing_qwen3_omni_moe.py:256-274 | an audio token stands behind the earlier ones and exactly the video tokens that have come by its time |
| Processor.ReplaceHere | qwen3omni_model/processing_qwen3_omni_moe.py:234-280 | `replace(..., 1)` hits the marker where it stands when one of its tokens occurs nowhere before |
| Processor.ExpandMark | qwen3omni_model/processing_qwen3_omni_moe.py:233-280 | expanding the next marker consumes the right iterators and leaves its placeholders, whatever was expanded before |
| Processor.ItemsAreGood | qwen3omni_model/processing_qwen3_omni_moe.py:233-280 | what the processor writes meets the well-formedness the position index needs |
| Processor.ExpandSample | qwen3omni_model/processing_qwen3_omni_moe.py:226-285 | a whole sample, its markers wrapped or bare and any other tokens around them, becomes token by token what `Spelled` reads off the inputs: each text as it was, each marker replaced by as many of its own tokens as its input has encoder rows, a video and its audio mixed by time; the iterators stand where the next sample continues |
| Processor.WholeIsRow | qwen3omni_model/processing_qwen3_omni_moe.py:226-285 | when all markers are wrapped and only words stand around them, the expanded sample is the row of segments the position index is defined on |
| Processor.WholeIsSpelled | qwen3omni_model/processing_qwen3_omni_moe.py:226-285 | that reading over any list of markers |
| ProcessorAgreement.ExpandBatch | qwen3omni_model/processing_qwen3_omni_moe.py:225-286 | all samples draw on the shared iterators one after another |
| ProcessorAgreement.WrittenRow | qwen3omni_model/processing_qwen3_omni_moe.py:225-286 | row i of the batch is the row of its segments on the inputs that all earlier rows leave |
| ProcessorAgreement.BatchIsReady | qwen3omni_model/modeling_qwen3_omni_moe.py:296-310 | the rows the processor writes, padded anywhere, meet everything `RopeBatch` and `Forward` ask of a batch |
| ProcessorAgreement.SameChoices | qwen3omni_model/processing_qwen3_omni_moe.py:256-266 | interleaving from times at zero chooses as the position index does from any start offset |
| ProcessorAgreement.MergeIsWeave | qwen3omni_model/modeling_qwen3_omni_moe.py:411-429 | the merged block list is the video and audio positions woven by its choices |
| ProcessorAgreement.InterleavesAgree | qwen3omni_model/processing_qwen3_omni_moe.py:244-274 | for any grid, rate and start: slots the processor fills with video tokens receive the video positions in order, the others the audio positions, with sorted times |
| ProcessorAgreement.RowPads | qwen3omni_model/processing_qwen3_omni_moe.py:233-275 | a row holds one audio token per encoder row of the audios it consumes |
| ProcessorAgreement.BatchPads | qwen3omni_model/processing_qwen3_omni_moe.py:225-286 | the same for the whole batch |
| ProcessorAgreement.PlaceholdersMatchRows | colar_plugin/qwen3omni_audio.py:73-82 | when a batch uses all its audios, audio tokens and encoder rows are equally many, so the merge cannot raise and token k receives row k |
| AudioLengths.ClosedForms | qwen3omni_model/modeling_qwen3_omni_moe.py:149-157 | 13 per full hundred plus an eighth rounded up; three stride-2 convolutions give an eighth rounded up |
| AudioLengths.ChunksTile | qwen3omni_model/modeling_qwen3_omni_moe.py:667-671 | chunks are non-empty, at most a window, and add up to the sample |
| AudioLengths.ChunkLengths | qwen3omni_model/modeling_qwen3_omni_moe.py:667-671 | the in-place fill (full windows, tail slots overwritten, zeros turned back) equals the chunk lists of the samples |
| AudioLengths.ChunkSumsAgreeIff | qwen3omni_model/modeling_qwen3_omni_moe.py:149-157 | chunk output lengths add up to the whole-sample length for every length exactly when the window is a multiple of 100 |
| AudioLengths.StrideAgreesIff | qwen3omni_model/modeling_qwen3_omni_moe.py:690-693 | the closed formula equals the real convolution length for every chunk of the window exactly when the window is at most 100 |
| AudioLengths.WindowIsHundred | qwen3omni_model/configuration_qwen3_omni_moe.py:70 | both hold only for `n_window` 50; the default 100 breaks the second |
| AudioLengths.ChunksFeat | qwen3omni_model/modeling_qwen3_omni_moe.py:667-693 | over a batch, chunk output lengths sum to the sample output lengths |
| AudioPacking.ValidCount | qwen3omni_model/modeling_qwen3_omni_moe.py:690-693 | one valid index per valid frame |
| AudioPacking.StrideIsWidth | qwen3omni_model/modeling_qwen3_omni_moe.py:690-693 | the index stride is the convolution length of the longest chunk, the real row width |
| AudioPacking.SelectKeepsValid | qwen3omni_model/modeling_qwen3_omni_moe.py:831 | selecting the valid indices from the flattened grid keeps every chunk's valid frames in order and no padding |
| AudioPacking.ValidIndicesAre | qwen3omni_model/modeling_qwen3_omni_moe.py:690-693 | the indices are those of the first frames of every chunk, as many as its output has |
| AudioPacking.IndicesAscend | qwen3omni_model/modeling_qwen3_omni_moe.py:690-693 | in ascending order |
| AudioPacking.FlatAt | qwen3omni_model/modeling_qwen3_omni_moe.py:690-693 | frame i of chunk c is entry c times the stride plus i of the flattened rows |
| AudioPacking.WindowWidths | qwen3omni_model/modeling_qwen3_omni_moe.py:728-733 | the width list is each sample cut into windows with a remainder, behind a leading zero |
| AudioPacking.AudioCuSeqlens | qwen3omni_model/modeling_qwen3_omni_moe.py:721-735 | the boundaries are the running sums of the window widths |
| AudioPacking.BoundariesTile | qwen3omni_model/modeling_qwen3_omni_moe.py:728-735 | boundaries start at 0, steps are 1..window, every sample ends on a boundary, the last boundary is the number of rows |
| AudioPacking.ScatterOrdered | colar_plugin/qwen3omni_audio.py:73-82 | slot k of the batch takes row k, every other position keeps its embedding |
| AudioPacking.MergeMeans | colar_plugin/qwen3omni_audio.py:55-82 | no features leave the embeddings as they are; with features it raises exactly when there is no slot or the counts differ, and otherwise every slot takes its row and nothing else changes |
| AudioPacking.AudioLengthsAgree | qwen3omni_model/modeling_qwen3_omni_moe.py:667-735 | with a 100-frame window, valid indices, kept rows, last boundary and slots are all equal in number, so the mismatch error of the merge is unreachable |
| Experts.Forward | qwen3omni_model/modeling_qwen3_omni_moe.py:1361-1385 | expert by hit expert, with in-place adds, every token ends with the sum over its own slots of the slot's expert on the token's state times the slot's weight |
| Experts.PlainIsSum | qwen3omni_model/modeling_qwen3_omni_moe.py:1361-1385 | the plain form is that sum |
| Experts.IndexAdd | qwen3omni_model/modeling_qwen3_omni_moe.py:1383 | rows are added to their tokens, repeats accumulating |
| Experts.ExpertAdds | qwen3omni_model/modeling_qwen3_omni_moe.py:1377-1383 | one expert adds to a token exactly the slots that name it |
| Experts.GroupedIsPlain | qwen3omni_model/modeling_qwen3_omni_moe.py:1368-1385 | the shares of the hit experts add up to the plain sum, for any routing |
| CompressBatch.GroupSum | colar_plugin/colar_trainer.py:618-625 | the masked slots of one group sum to its real tokens and count them |
| CompressBatch.PaddedGroups | colar_plugin/colar_trainer.py:610-618 | padding by (-n) mod r makes as many whole groups as there are groups |
| CompressBatch.PoolReasoning | colar_plugin/colar_trainer.py:610-631 | padding, masking and reshaping pool exactly the groups; each label comes from its group, or is padding when the group is short |
| CompressBatch.CompressRow | colar_plugin/colar_trainer.py:567-647 | one row, slot by slot from the first occurrences of the tags: split exactly when the closing tag is attended and reasoning is left behind the opening tag and its newline, then prefix and answer as they were, each pooled slot the sum of its run of at most r embeddings over the norm of their number, a label drawn from them, and supervision from the last prefix token to the last pooled slot; passed through otherwise |
| CompressionPoints.SplitIff | colar_plugin/colar_trainer.py:567-647 | where a row is split, from first occurrences alone, in both directions |
| CompressionPoints.SplitNone | colar_plugin/colar_trainer.py:567-647 | it is passed through exactly when there is no such place |
| CompressionPoints.GroupAt | colar_plugin/colar_trainer.py:567-647 | group j is the j-th run of r tokens or what is left of them |
| CompressionPoints.CompressedMeans | colar_plugin/colar_trainer.py:567-647 | the compressed form says exactly that of every slot |
| CompressBatch.Compress | colar_plugin/colar_trainer.py:551-662 | all rows rebuilt and right padded to the longest with zeros, no attention, -100 labels and no supervision |
| Compression.GroupsTile | colar_plugin/colar_trainer.py:610-620 | every reasoning token is in exactly one group, in order; there are ceil(n/r) groups |
| Compression.GroupSizes | colar_plugin/colar_trainer.py:610-620 | groups have 1 to r tokens and only the last may be short |
| Compression.PoolConserves | colar_plugin/colar_trainer.py:620-625 | pooled values weighted by their divisors (norm of the count plus epsilon) sum to the reasoning, in mean and square-root mode |
| CompressionLaw.CompressionKeeps | colar_plugin/colar_trainer.py:592-633 | verbatim prefix and answer, ceil(n/r) pooled groups tiling the reasoning, and conservation of its sum |
| CompressionLaw.SplitIgnoresPadding | colar_plugin/colar_trainer.py:569-585 | tags found beyond the attended tokens count as absent |
| CompressionLaw.PaddingIsInert | colar_plugin/colar_trainer.py:567-647 | rows agreeing on their attended tokens compress alike |
| CompressionLaw.LengthIs | colar_plugin/colar_trainer.py:567-649 | the compressed length depends only on the ratio and the attended tokens |
| CompressionLaw.SupervisionAligned | colar_plugin/colar_trainer.py:533-534 | supervised positions are one run of k+1 slots from the last prefix token; rolled targets there are the pooled embeddings, then the closing tag's, with no wrap and no padding |
| CompressionLaw.LatentInputMask | colar_plugin/colar_trainer.py:362-370 | the mask drops exactly the first supervised position |
| CompressionLaw.LatentInputsArePooled | colar_plugin/colar_trainer.py:362-370 | on a compressed row the latent inputs are exactly the k pooled slots |
| CompressionLaw.BuildThinkMask | colar_plugin/colar_trainer.py:494-508 | at ratio one the mask is strictly between the first tags |
| CompressionLaw.UnitMaskIff | colar_plugin/colar_trainer.py:494-508 | that mask is the run compression would supervise exactly when the newline follows the opening tag |
| CompressionLaw.UnitMaskExample | colar_plugin/colar_trainer.py:494-508 | three tokens without a newline, where the run starts on the opening tag and the mask does not |
| ScheduledSampling.KeyLengthIs | colar_plugin/colar_trainer.py:372-381 | the cache key determines the compressed length of its row |
| ScheduledSampling.KeyIff | colar_plugin/colar_trainer.py:372-381 | rows share a key exactly when they agree on the ratio and on every attended token |
| ScheduledSampling.PredictionCache.constructor | colar_plugin/colar_trainer.py:102 | an empty cache satisfies the refinement |
| ScheduledSampling.PredictionCache.Put | colar_plugin/colar_trainer.py:469-475 | storing assigns, moves to the end and evicts the oldest; keys stay the newest `max` by last touch, each with its latest predictions |
| ScheduledSampling.PredictionCache.Store | colar_plugin/colar_trainer.py:444-475 | a batch is stored in row order, later rows winning; nothing happens when the bound is not positive |
| ScheduledSampling.PredictionCache.Get | colar_plugin/colar_trainer.py:408-412 | a hit gives the key's latest predictions, shifted by one and cut to its row, and makes the key newest; a miss changes nothing |
| ScheduledSampling.PredictionCache.Apply | colar_plugin/colar_trainer.py:383-424 | drawn latent positions of cached rows take the shifted prediction, all other positions are unchanged, and exactly the hit keys are touched; a hit of another hidden size is touched but replaces nothing |
| ScheduledSampling.PutStep | colar_plugin/colar_trainer.py:472-475 | one store keeps: cached keys are the last-touch order cut to its newest `max`, with latest values |
| ScheduledSampling.GetStep | colar_plugin/colar_trainer.py:408-412 | one hit keeps the same |
| ScheduledSampling.KnownIsCached | colar_plugin/colar_trainer.py:408-418 | on a valid cache exactly the cached keys have an entry, the shifted latest predictions cut to the row |
| ScheduledSampling.RowStorable | colar_plugin/colar_trainer.py:469-472 | a compressed row's attention spans exactly the length its key stands for |
| ScheduledSampling.LatentsReplaceable | colar_plugin/colar_trainer.py:405-424 | every latent input lies inside its key's entry and past the wrapped slot, so a replaced input at t is the prediction made at t-1 |
| ScheduledSampling.ReplacedRow | colar_plugin/colar_trainer.py:383-424 | the whole replacement on a compressed row: a drawn latent input of a hit row becomes the key's latest prediction made one position earlier times the scale, and nothing else changes |
| LruOrder.LastUseKeys | colar_plugin/colar_trainer.py:472-475 | the last-touch order has each touched key once |
| LruOrder.LastUseOrder | colar_plugin/colar_trainer.py:472-475 | earlier in that order means touched less recently |
| LruOrder.CutAfterUse | colar_plugin/colar_trainer.py:472-475 | touching a key and cutting commute between the bounded list and the whole order |
| QueryAnchor.QueryPrefixLengths | colar_plugin/query_anchor_trainer.py:341-359 | prefix lengths per row: the kept prefix, or the attended length, at least 1 |
| QueryAnchor.QueryAnchorPositions | colar_plugin/query_anchor_trainer.py:361-385 | training anchors per row: the token in front of the last turn end before the first opening tag, if past the first token and before the first closing tag, otherwise the end of the prefix |
| QueryAnchor.UserEndIff | colar_plugin/query_anchor_trainer.py:361-385 | the turn end used is the last one in front of the first opening tag |
| QueryAnchor.TrainIs | colar_plugin/query_anchor_trainer.py:361-385 | the anchor of training from the tokens alone |
| QueryAnchor.InferMeans | colar_plugin/query_anchor_infer.py:345-354 | the anchor of inference from the tokens alone |
| QueryAnchor.PrefixMeans | colar_plugin/query_anchor_trainer.py:341-359 | the prefix length from first occurrences alone |
| QueryAnchor.PromptSeesSame | colar_plugin/query_anchor_trainer.py:341-385 | the prompt (the row's prefix) shows the same last turn end as the full row |
| QueryAnchor.AnchorsAgreeIff | colar_plugin/query_anchor_infer.py:345-354 | training and inference pick the same anchor exactly when the last turn end before the opening tag is absent or not the first token |
| QueryAnchor.FirstTokenExample | colar_plugin/query_anchor_infer.py:345-354 | a row whose first token is the turn end, where they differ |
| QueryAnchor.AnchorKept | colar_plugin/query_anchor_trainer.py:324-326 | the anchor lies in the prefix compression keeps and indexes the same embedding before and after |
| Generation.RowPositions | colar_plugin/colar_infer.py:116-117 | a right-padded row numbers its attended positions 0, 1, 2, ... |
| Generation.LatentSteps | colar_plugin/colar_infer.py:192-258 | latent steps stay within their limit, stop at the first closing tag, and `hit_eol` holds exactly when the last step chose it |
| Generation.AnswerSteps | colar_plugin/colar_infer.py:279-312 | answer tokens stay within their limit and stop after the first end-of-sequence token, which is not fed |
| Generation.LatentGenerate | colar_plugin/colar_infer.py:180-319 | over a whole run every mask covers exactly the embeddings fed and positions count up from 0 without gaps; fed are the prompt, one latent per step, the closing tag once, and the answer tokens in order but for a final end-of-sequence token |
| Generation.TrainingPositionsMatch | colar_plugin/colar_trainer.py:287 | latents and the closing tag are fed at the positions training gives the pooled slots and the closing tag |
| Vocoder.CausalKeeps | qwen3omni_model/modeling_qwen3_omni_moe.py:3291-3305 | a causal convolution yields one frame per stride, rounded up, for any kernel and dilation |
| Vocoder.TransLengths | qwen3omni_model/modeling_qwen3_omni_moe.py:3308-3320 | the trimmed transposed convolution gives (n-1)s frames for kernel 2s and ns for kernel s |
| Vocoder.DecodedIs | qwen3omni_model/modeling_qwen3_omni_moe.py:3694-3716 | the decoder blocks let through exactly the runs of at least `Need` frames, and of those all but the lost ones come out |
| Vocoder.WavIs | qwen3omni_model/modeling_qwen3_omni_moe.py:3755-3767 | for any factors of at least 1, n codes can be decoded exactly when their upsampled frames reach that threshold, and give n times all factors less the sum of suffix products of the decoder rates |
| Vocoder.NeedTwo | qwen3omni_model/modeling_qwen3_omni_moe.py:3694-3716 | with decoder rates of at least 2 the threshold is two frames |
| Vocoder.DefaultFactors | qwen3omni_model/configuration_qwen3_omni_moe.py:553-554 | 1920 samples per code and 555 lost per decoded chunk by default |
| Vocoder.RangesTile | qwen3omni_model/modeling_qwen3_omni_moe.py:3769-3779 | kept ranges partition the codes, each of the chunk size except perhaps the last, with context min(start, limit) |
| Vocoder.ChunkedDecode | qwen3omni_model/modeling_qwen3_omni_moe.py:3769-3780 | the loop joins the pieces of all ranges in order; sample q of a chunk behind its context stands at its own place behind what earlier chunks contributed |
| Vocoder.SamplesKept | qwen3omni_model/modeling_qwen3_omni_moe.py:3769-3780 | which samples are kept, by index, for any list of ranges |
| Vocoder.ChunkedLength | qwen3omni_model/modeling_qwen3_omni_moe.py:3769-3780 | total samples are the full upsampling of T codes less the loss times ceil(T / chunk) exactly when no chunk keeps less than the loss, and more otherwise |
| Vocoder.UsualChunks | qwen3omni_model/modeling_qwen3_omni_moe.py:3769-3780 | with rates of at least 2 and two frames per code every chunk can be decoded and none keeps less than the loss |
| SchedulerManager.ExpManager.FindFreeGpu | scripts/benchmark/exp_utils.py:226-234 | None exactly when fewer GPUs are free than asked; otherwise that many free ones |
| SchedulerManager.ExpManager.AssertGpuNotOverlap | scripts/benchmark/exp_utils.py:97-103 | passes exactly when running GPU sets are disjoint and none is missing; never reports overlap when they are disjoint |
| SchedulerManager.ExpManager.BuildEvalCmd | scripts/benchmark/exp_utils.py:148-172 | blocked, unbuildable or a command with the requested free GPUs |
| SchedulerManager.ExpManager.BuildCmd | scripts/benchmark/exp_utils.py:174-224 | the same for training, with unsupported kinds raising |
| SchedulerManager.ExpManager.LoadRecord | scripts/benchmark/exp_utils.py:106-116 | skip exactly when the record is complete; otherwise load it for evaluation |
| SchedulerManager.ExpManager.Build | scripts/benchmark/exp_utils.py:118-137 | name and export checks, then the command: the verdict of the decision table |
| SchedulerManager.ExpManager.Run | scripts/benchmark/exp_utils.py:105-146 | one call is one of the outcomes of the step relation: skipped, blocked, retried, failed or launched |
| SchedulerManager.ExpManager.Book | scripts/benchmark/exp_utils.py:326-343 | bookkeeping of an exited process |
| SchedulerManager.ExpManager.Scan | scripts/benchmark/exp_utils.py:319-344 | one pass over the running list, each poll at its own time |
| SchedulerManager.ExpManager.SweepExited | scripts/benchmark/exp_utils.py:346-348 | the filter keeps exactly those alive at their second poll |
| SchedulerManager.ExpManager.Poll | scripts/benchmark/exp_utils.py:315-348 | returns after a scan that saw an exit, with the state of scan and sweep |
| SchedulerManager.ExpManager.LaunchWaiting | scripts/benchmark/exp_utils.py:359-375 | the inner loop keeps the invariant; it reports the endless retry only with a head whose verdict is to retry, and otherwise ends with an empty queue or a blocked head; an orderly workload stays orderly and keeps work to do, an idle one is skipped to the end, and nothing that cannot start leaves the queue |
| SchedulerManager.ExpManager.Begin | scripts/benchmark/exp_utils.py:350-377 | the invariant holds throughout; each endless ending is reported only in a state that justifies it; on a workload the ending is the forecast, and finishing means: no process for a complete record, an evaluation and no training for an incomplete one, a training first for an untrained experiment and an evaluation whenever it left a record and has an evaluation set; every process has the GPUs its experiment asks for, evaluations follow a record or a training that succeeded, no export starts beside another; what cannot start is never finished; with every record complete it polls for ever |
| SchedulerManager.ByPriority | scripts/benchmark/exp_utils.py:353-356 | a stable sort by GPU request |
| SchedulerManager.EachEnding | scripts/benchmark/exp_utils.py:350-377 | a concrete workload for each ending, one of them resuming an interrupted run |
| Scheduler.LiveGpusDisjoint | scripts/benchmark/exp_utils.py:226-234 | at any moment of the history two live processes hold disjoint GPUs of the machine |
| Scheduler.TickKeepsInv | scripts/benchmark/exp_utils.py:317-323 | time passing and processes exiting keep the invariant |
| Scheduler.SpawnKeepsInv | scripts/benchmark/exp_utils.py:135-146 | launching the head on free GPUs keeps the invariant |
| Scheduler.PrepareKeepsInv | scripts/benchmark/exp_utils.py:106-113 | loading a record into the waiting head keeps the invariant |
| Scheduler.PopKeepsInv | scripts/benchmark/exp_utils.py:367-375 | taking the head off the queue keeps the invariant |
| SchedulerPoll.PolledAt | scripts/benchmark/exp_utils.py:320-347 | a running experiment leaves exactly when the sweep sees it exited; it is booked only if the scan saw it, so one exiting in between is dropped unrecorded |
| SchedulerPoll.PolledFrame | scripts/benchmark/exp_utils.py:320-347 | the queue gets the re-queued experiments in front; the running list only shrinks |
| SchedulerPoll.PollIsStep | scripts/benchmark/exp_utils.py:315-348 | what a returning poll amounts to for every experiment |
| SchedulerPoll.PollKeepsInv | scripts/benchmark/exp_utils.py:315-348 | whatever the polling times and exits, a returning poll keeps the invariant |
| SchedulerPoll.PollMakesProgress | scripts/benchmark/exp_utils.py:315-348 | every returning poll moves some experiment to a later phase and none back |
| SchedulerStory.VerdictMeans | scripts/benchmark/exp_utils.py:105-146 | the verdict on the head from its record and its own fields, in the order of the source's checks |
| SchedulerStory.LaunchAlone | scripts/benchmark/exp_utils.py:131-134 | a training starts only beside experiments of other names, an export beside no other export |
| SchedulerStory.NewProc | scripts/benchmark/exp_utils.py:118-146 | a launched process has the requested number of GPUs; a training is the first process of an experiment without a record; an evaluation was asked for, resumes a record or follows a success |
| SchedulerStory.RunKeepsStory | scripts/benchmark/exp_utils.py:359-375 | a launch, skip or failure keeps these facts about every process and every record |
| SchedulerStory.PollKeepsStory | scripts/benchmark/exp_utils.py:315-348 | and so does a poll |
| SchedulerStory.PollBooks | scripts/benchmark/exp_utils.py:320-344 | a training seen to have succeeded leaves its record and waits for its evaluation if there is a set; an evaluation that succeeded completes the record; a failure changes neither record nor queue |
| SchedulerStory.RunKeepsDue | scripts/benchmark/exp_utils.py:359-375 | a record written by this run keeps its experiment in the queue until its evaluation was launched |
| SchedulerStory.StoryEnds | scripts/benchmark/exp_utils.py:358-377 | what each experiment was given once the queue is empty |
| SchedulerProgress.BlockedImpliesRunning | scripts/benchmark/exp_utils.py:226-234 | a blocked head asking for no more than the machine has means something is running |
| SchedulerProgress.OrderlyHead | scripts/benchmark/exp_utils.py:105-146 | the verdict on an orderly head: skipped exactly when done from the start; short of GPUs with nothing running only when it asks for more than there are; retried only when its command's assembly fails an assertion; never an error |
| SchedulerProgress.PollKeepsOrderly | scripts/benchmark/exp_utils.py:315-348 | a poll keeps a workload orderly, record files included, and leaves work to do behind a blocked head |
| SchedulerProgress.PollMovesForward | scripts/benchmark/exp_utils.py:315-348 | a poll moves no experiment back, changes no untrained one and removes no record |
| SchedulerProgress.RunKeepsInv | scripts/benchmark/exp_utils.py:359-375 | a call of `run` and the following pop keep the invariant |
| SchedulerProgress.RunMovesForward | scripts/benchmark/exp_utils.py:359-375 | neither moves an experiment to an earlier phase |
| SchedulerProgress.RunKeepsOrderly | scripts/benchmark/exp_utils.py:359-375 | a launch, a skip or a blocked look keeps a workload orderly and with work to do |
| SchedulerProgress.RunKeepsIdle | scripts/benchmark/exp_utils.py:106-116 | with nothing running and every record complete `run` only skips |
| SchedulerProgress.PollKeepsNeverStarts | scripts/benchmark/exp_utils.py:315-376 | a first launch that asks for too much, or whose assembly fails an assertion, stays queued through polls |
| SchedulerProgress.RunKeepsNeverStarts | scripts/benchmark/exp_utils.py:359-375 | and through launches of others |
| SchedulerEndings.RunEnding | scripts/benchmark/exp_utils.py:363-373 | an assertion error without a shortage of GPUs leaves the state as it was, so the retry fails the same way |
| SchedulerEndings.RetriesMeans | scripts/benchmark/exp_utils.py:359-375 | on a workload a retried head is an experiment of the start whose assembly fails an assertion and whose request fits |
| SchedulerEndings.PollsMeans | scripts/benchmark/exp_utils.py:358-376 | with nothing running and a blocked head, some experiment of the start asks for too much, and none that fits fails an assertion |
| SchedulerEndings.FinishedMeans | scripts/benchmark/exp_utils.py:358-377 | with both lists empty every experiment of the start could be launched, and was, once or twice, unless done before |
| DsmlTemplate.EncodeArguments | swift/agent_template/deepseek_v4.py:51-58 | the printer's loop writes one parameter line per argument |
| DsmlTemplate.FormatToolCalls | swift/agent_template/deepseek_v4.py:126-138 | the printer's loop writes the whole block |
| DsmlTemplate.GetToolcall | swift/agent_template/deepseek_v4.py:63-92 | the two nested scanning loops return what the parser specification reads, or the fallback |
| DsmlReading.ElementRead | swift/agent_template/deepseek_v4.py:76-86 | with any whitespace between its parts, a parameter assigns its key its text under mark "true", its JSON value under "false", and its text where that is no JSON; a repeated key keeps its place and takes the last value |
| DsmlReading.InvokedRead | swift/agent_template/deepseek_v4.py:65-75 | with any whitespace around, an invocation is a call of its name with the arguments of its block |
| DsmlReading.SingleArgument | swift/agent_template/deepseek_v4.py:63-92 | a response of one invocation with one parameter, read to the end |
| DsmlRoundTrip.ParameterWritten | swift/agent_template/deepseek_v4.py:68-80 | a printed parameter is matched with its key, mark and text, whatever follows |
| DsmlRoundTrip.ArgumentsWritten | swift/agent_template/deepseek_v4.py:76-86 | printed arguments are read back in order |
| DsmlRoundTrip.BlockWritten | swift/agent_template/deepseek_v4.py:66-67 | the stripped block of a printed invocation is its parameter lines and nothing else |
| DsmlRoundTrip.InvocationsWritten | swift/agent_template/deepseek_v4.py:72-87 | printed invocations are read back one after another |
| DsmlRoundTrip.PrintedReads | swift/agent_template/deepseek_v4.py:137-138 | the surrounding tags contribute nothing |
| DsmlRoundTrip.CallsClean | swift/agent_template/deepseek_v4.py:63-92 | on any text, returned calls have quotable names and distinct, delimiter-free arguments |
| DsmlRoundTrip.PrintThenParse | swift/agent_template/deepseek_v4.py:126-138 | printing then parsing returns the same calls in order, strings and JSON values kept apart |
| DsmlNecessity.InnerSilent | swift/agent_template/deepseek_v4.py:68-80 | no parameter is matched from inside the text of a JSON value |
| DsmlNecessity.ArgumentsCut | swift/agent_template/deepseek_v4.py:76-86 | printed arguments are read in order, each with its text cut at its first closing tag |
| DsmlNecessity.BlockCut | swift/agent_template/deepseek_v4.py:66-67 | the block of an invocation ends inside the first text that holds an invocation's closing tag |
| DsmlNecessity.InvocationCut | swift/agent_template/deepseek_v4.py:63-92 | a call that is not printable comes back with other arguments |
| DsmlNecessity.RoundTripIff | swift/agent_template/deepseek_v4.py:63-92 | for every non-empty list the trip gives the calls back exactly when all of them are printable |
| DsmlNecessity.LossExample | swift/agent_template/deepseek_v4.py:63-92 | a JSON value whose text holds a closing tag is lost |
| DsmlRoundTrip.EmptyFallsBack | swift/agent_template/deepseek_v4.py:89-91 | an empty list prints to text that falls back to ReAct |

## Left out

- DsmlNecessity.RoundTripIff: JSON is a codec with three laws. A dumped text decodes to its value; none of its proper prefixes does (integers and floats being different values); and it spells no `string="true"` or `string="false"`, since a quote that ends a JSON string is followed by punctuation.
- RopeLoop.RopeRow: rows must be well formed (every marker with its inputs, no empty media, grids divisible by the merge size). What the loop does on other rows is not modelled: an empty media segment makes the maximum of an empty block raise. An empty row, on which the final concatenation raises, gives an empty block list here.
- SchedulerManager.ExpManager.Begin: the two endless behaviours are returned as endings instead of running for ever; experiments are values in a pool indexed by identity, and fields of command strings, logs and metrics are reduced to the outcomes that steer the loop. The forecast covers workloads with distinct names, at most one export, evaluations that fit and build, and no training command that raises: a raising head is dropped, and whether another process still runs at that moment, hence whether the loop finishes, depends on exit times.
- SchedulerManager.ExpManager.Run: an exception whose message happens to contain the words for a GPU shortage, which also breaks the inner loop, is not distinguished.
- SchedulerManager.ExpManager.BuildEvalCmd: whether the command can be built is one fixed flag per experiment, standing for the missing `args.json` and the checkpoint's presence, which the source looks up at each call.
- SchedulerManager.ExpManager.BuildCmd: what assembling the arguments does is one fixed outcome per experiment; the source constructs the argument objects anew at each call, with whatever their checks find then.
- Processor.ExpandSample: samples are sequences of tokens, so ordinary text that spells a marker or placeholder is outside the model, and one merge size serves images and videos. A bare video marker in audio-in-video mode, for which the source replaces the next wrapped one instead, is not modelled.
- Experts.Forward: expert outputs, embeddings and pooled values are one real coordinate each, and rounding is not modelled.
- CompressBatch.Compress: the padded tensors are built row by row as values, not written in place.
- ScheduledSampling.PredictionCache.Apply: stored predictions keep full precision, and of each prediction one coordinate and the hidden size are kept.
- CompressionLaw.BuildThinkMask: ratio one takes tags from padding too, unlike compression; only rows whose tags are attended are compared.
- Generation.LatentGenerate: tokens come from arbitrary choice functions that stand for greedy or sampled heads; the batch size is 1, as the source asserts.
- Vocoder.WavIs: factors of 0, with which the source's layers cannot be built, are excluded.
- The ReAct fallback parser, which rests on a helper in another file, and the serialisation of the parsed arguments back to JSON.
- Optional precomputed values passed through keyword arguments of the audio helpers.
- `get_chunked_index`, rotary angles, router softmax, losses, optimisers, devices, checkpoints and random sampling.
- `modular_qwen3_omni_moe.py`, the hand-written twin of the generated modelling file: same logic.
- Diagnosis, sweep, data preparation, command-line and report scripts.
- Residual query and noise of the query-anchored trainer: they change embedding values, not positions.
