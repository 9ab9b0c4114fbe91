# SRNet data generator: bookkeeping model

A Dafny model of the integer and sequence logic inside the SRNet training
data generator (`Synthtext/gen.py`). For each sample, the generator renders a
style text and a target text, reconciles both warped surfaces to one canvas,
cuts a background crop of that size, and puts the seven artifacts
`[i_t, i_s, t_sk, t_t, t_b, t_f, mask_t]` on a shared queue. A consumer then
drains batches of them and resizes every batch to one common height and width.
Rendering, warping, colouring and skeletonisation are opaque here. Every
random draw, and every size those collaborators return, is an explicit
parameter.

Modules (one per file):

- `Outcomes` (outcomes.dfy): `Result`/`Option`, and the Python exceptions the logic can raise.
- `Casing` (casing.dfy): the casing of the English text from one uniform draw.
- `Geometry` (geometry.dfy): the curve-centre remap, the common canvas, the background fit test, the crop window and crop, and the minimum box height.
- `SampleGen` (samplegen.dfy): one pass of the generator's retry loop (`Attempt`) and the loop itself (`Generate`).
- `BatchWidth` (batchwidth.dfy): the per-crop scaled width, the floor average, and Python's half-to-even `round` to a multiple of 8.
- `Queue` (queue.dfy): the producer loop `enqueue_data`, `dequeue_data`, and `dequeue_batch` up to the resize.
- `Backpressure` (backpressure.dfy): the advisory capacity test when several producers interleave.
- `Normalize` (normalize.dfy): the final value-range normalisation, over reals.

Facts about the code that the model makes explicit:

- `to_w` at Synthtext/gen.py:287 is not kept positive: it is 0 whenever the floor-average scaled width is at most 4 (`round(0.5)` is 0 in Python) (`BatchWidth.CommonBatchSizeCanBeZero`). The first `cv2.resize` at line 290 then raises, after the samples have been drained (`Queue.DequeueBatch`).
- The remapped curve centre at line 130 is never read: the second text is rendered by `render_normal` at line 131, which takes no curve parameter. The model computes it (`SampleGen.Plan.curveCenter2`) and uses it for nothing.
- A generation attempt that raises is swallowed at lines 224-225, but the put at lines 226-227 still runs when `qsize() < capacity`. It puts the previous sample again, or raises UnboundLocalError when no attempt has succeeded yet (see Findings).

## Model

| member | source | states |
|---|---|---|
| Casing.CaseText | Synthtext/gen.py:99-103 | a draw below the upper-case rate gives the fully upper-cased text; a draw in [upper rate, capitalize rate + upper rate) gives the capitalised text; any other draw leaves the text unchanged; the length is kept |
| Casing.UpperAfterCapitalize | Synthtext/gen.py:100-103 | capitalising and then upper-casing equals upper-casing alone, so the two-step path yields plain upper case |
| Casing.UpperSpec | Synthtext/gen.py:102-103 | upper-casing leaves no lower-case letter and keeps the letters; a text is fixed by it exactly when it has no lower-case letter |
| Casing.CapitalizeSpec | Synthtext/gen.py:100-101 | capitalising gives a text whose first character is not lower-case and whose other characters are not upper-case, with the same letters; it is idempotent |
| Geometry.CurveCenterRemap | Synthtext/gen.py:127-130 | the remapped centre r is the floor of c*len2/len1 (r*len1 <= c*len2 < (r+1)*len1); it lies in [0, len2) when len2 > 0 and is 0 when c is 0 |
| Geometry.CurveCenterRemapMonotone | Synthtext/gen.py:130 | the remap is monotone in the centre index |
| Geometry.CurveCenterRemapExample | Synthtext/gen.py:130 | centre 5 of a 10-character text maps to 4 on an 8-character text |
| Geometry.CommonCanvas | Synthtext/gen.py:151-154 | the canvas holds both warped surfaces and equals one of them in height and one of them in width |
| Geometry.CommonCanvasLeast | Synthtext/gen.py:153-154 | every size that holds both surfaces holds the canvas, so the canvas is the smallest such size |
| Geometry.RejectsIffNotContains | Synthtext/gen.py:159-161 | the background is rejected exactly when it does not contain the canvas |
| Geometry.CropWindow | Synthtext/gen.py:162-164 | for offsets in the drawn ranges, the window has exactly the canvas size, sits at (y, x), and lies wholly inside the background |
| Geometry.CropWindowCoversAll | Synthtext/gen.py:162-163 | every canvas-sized window inside the background is reached by some admissible offset pair |
| Geometry.Crop | Synthtext/gen.py:164 | the crop has canvas height and width, and pixel (i, j) is background pixel (top+i, left+j) |
| Geometry.SeqMin | Synthtext/gen.py:180-181 | the minimum is an element of the list and no greater than any element |
| Geometry.MinBoxHeight | Synthtext/gen.py:180-182 | defined exactly when both box lists are non-empty (np.min raises otherwise); no greater than every height of both lists, and equal to one of them |
| SampleGen.Attempt | Synthtext/gen.py:99-182 | a pass retries exactly when text1 is non-empty and the background is too small; it raises ValueError for an empty text1 (randint(0, 0)), and otherwise raises exactly when the background fits and a box list is empty (np.min); a planned pass has the cased text1, the remapped centre, the canvas (max h, max w) of the two surfaces, a crop of canvas size at (y, x) inside the background with the background's pixels, and min_h equal to the minimum box height over both lists |
| SampleGen.Generate | Synthtext/gen.py:90-161 | the loop ends at the first pass that does not retry, with that pass's outcome, every earlier pass having retried; if no pass ends it, all retried |
| BatchWidth.ScaledWidth | Synthtext/gen.py:281-283 | the scaled width is the floor of w*H/h |
| BatchWidth.RoundToEight | Synthtext/gen.py:287 | the result is a multiple of 8 within 4 of v; it is below v on remainders under 4 and above on remainders over 4; on a remainder of 4 its quotient is even (Python round) |
| BatchWidth.RoundToEightNearest | Synthtext/gen.py:287 | no multiple of 8 is closer to v than the rounded value |
| BatchWidth.CommonBatchSize | Synthtext/gen.py:279-288 | defined exactly when every crop height is positive (ZeroDivisionError otherwise); the height is the requested one; the width is a multiple of 8 within 4 of the floor average of the scaled widths, and on a tie has an even quotient |
| BatchWidth.ComputeBatchSize | Synthtext/gen.py:279-287 | the source's accumulating loop, stopping at the first zero height, yields the same size or error as the reference definition |
| BatchWidth.CommonBatchSizeExample | Synthtext/gen.py:279-288 | four 100x300 crops at height 64 give a 64x192 batch |
| BatchWidth.CommonBatchSizeCanBeZero | Synthtext/gen.py:285-288 | a single 64x3 crop at height 64 gives to_w 0, so the rounding does not keep the width positive |
| Queue.EnqueueStep | Synthtext/gen.py:221-227 | a put happens only while the queue is below capacity, otherwise the queue is unchanged; data becomes the attempt's sample on success and keeps its previous value (bound or unbound) on failure; with room, the put appends data, so a failed attempt puts the previous sample again; the step raises exactly when the attempt failed, data was never bound and there is room |
| Queue.FailedAttemptRepeatsLastSample | Synthtext/gen.py:222-227 | after a failed attempt with room, the last generated sample is appended again |
| Queue.RunCrashesIff | Synthtext/gen.py:217-227 | a lone producer dies exactly when its first attempt fails while there is room |
| Queue.RunAppendsWithinCapacity | Synthtext/gen.py:221-227 | a lone producer only appends to the queue, stays within the capacity, and puts only samples it generated |
| Queue.RunOverPutsAndCrashes | Synthtext/gen.py:222-227 | concrete inputs: a producer that generates s and then fails puts s twice from one success; a producer whose first attempt fails with room crashes |
| Queue.IntendedStep | Synthtext/gen.py:222-227 | a failed attempt leaves the queue unchanged; the guarded put agrees with the as-written step after a success; after a failure with room, the as-written step puts the previous sample where the guarded one puts nothing, or crashes where the guarded one carries on |
| Queue.IntendedRunPutsEachSuccessAtMostOnce | Synthtext/gen.py:221-227 | with the guarded put, the producer appends only its own successful samples, at most one per success, within the capacity |
| Queue.DequeueData | Synthtext/gen.py:247-252 | a get is possible exactly on a non-empty queue; it returns the front sample and the rest |
| Queue.DequeueAfterPut | Synthtext/gen.py:227 | first in, first out: a put at the back does not change what the next get takes from a non-empty queue |
| Queue.SplitRegroups | Synthtext/gen.py:269-277 | regrouping the seven per-artifact lists gives back the drained samples in order |
| Queue.Drain | Synthtext/gen.py:269-277 | draining n samples yields seven lists of length n, where list k holds artifact k of the i-th front sample; the queue keeps the rest unchanged |
| Queue.DequeueBatch | Synthtext/gen.py:260-290 | waits exactly while 0 < batch_size and fewer samples are queued; batch_size <= 0 raises without touching the queue; otherwise exactly batch_size samples leave the front, and it raises (losing them) exactly when a drained crop has height 0, or the common size has a zero side, or a drained artifact has a zero side (cv2.resize rejects an empty target or input); a batch splits them in the order i_t, i_s, t_sk, t_t, t_b, t_f, mask_t, and a batch is returned exactly when every drained crop height is positive, the requested height is positive, the common width is positive and no drained artifact is empty; its size is the common batch size, with the requested height and a positive width that is a multiple of 8 |
| Backpressure.Step | Synthtext/gen.py:226-227 | a size test admits a producer only when the observed size is below capacity; the queue grows only through the put of an admitted producer |
| Backpressure.StepKeepsWithin | Synthtext/gen.py:226-227 | each test, put or get keeps queued items plus pending puts within capacity + workers - 1 |
| Backpressure.RunKeepsWithin | Synthtext/gen.py:226-227 | any interleaving of events keeps that bound |
| Backpressure.QueueSizeBound | Synthtext/gen.py:240-244 | starting from an empty queue with all producers generating, the queue never exceeds capacity + workers - 1 |
| Backpressure.QueueSizeBoundReached | Synthtext/gen.py:226-227 | with capacity 2 and three producers, an interleaving reaches 4, so the test can overshoot the capacity |
| Normalize.NormalizeColor | Synthtext/gen.py:308-313 | a pixel value in [0, 255] maps into [-1, 1], and the map is inverted by (r + 1) * 127.5 |
| Normalize.NormalizeMask | Synthtext/gen.py:310 | a mask value in [0, 255] maps into [0, 1], with 0 to 0 and 255 to 1, and the map is inverted by r * 255 |

## Left out

- Asset loading: fonts, text corpora, background list, colour table and `cv2.imread` (Synthtext/gen.py:28-58, 104) are file I/O. An unreadable background (`imread` returning None) is not modelled.
- Rendering and warping: `render_text`, `render_normal`, `bb_xywh2coords`, `perspective`, `center2size`, `make_standard_text` and `paint_boundingbox` are not part of this model. Their only contribution is the surface sizes and box heights in `SampleGen.Draws`.
- The font style draws and the colour/effect parameter dictionaries (lines 112-120, 185-201) only feed opaque collaborators. `colorize` is not part of this model.
- Augmentor pipelines (lines 61-74, 167-174) change pixels only, never sizes.
- `skeletonization` is not part of this model. Also left out: the pixel contents of `cv2.resize`, the skeleton recomputed from the resized mask, and `np.stack` / `np.expand_dims` (lines 289-306).
- Queue.DequeueBatch: the resize failure is modelled as one error for a zero-side target or any empty drained artifact; which sample or artifact `cv2.resize` fails on first is not, since its pixel work is left out.
- Concurrency: the multiprocessing Pool and Manager, `terminate_pool` and `get_queue_size` are left out. Each busy-wait is a `Waiting`/`None` outcome, not a loop. `Backpressure` models only the queue length under interleaving.
- `np.random.seed()` and every draw: these are parameters.
- SampleGen.Generate: takes a finite list of passes. The source loops forever when every background is rejected. Here that case is the `StillRetrying` result.
- SampleGen.Attempt: does not carry the pixels of the six artifacts other than t_b. The order of the generator's returned list is stated by `Queue.Artifact`.
- Casing.CaseText: upper- and lower-casing cover only the ASCII letters. Python's `str.upper` and `str.capitalize` act on all of Unicode, and `capitalize` title-cases the first character.
- Geometry.CurveCenterRemap: uses the exact rational floor. The source's float expression can come out one lower, e.g. 1/49*49 is 0.9999999999999999.
- BatchWidth.ScaledWidth: uses the exact floor of w*H/h. The source's float product can differ from it by 1.
- Queue.RunCrashesIff: covers a producer with no consumer acting between its passes. When a consumer drains the queue, the crash can come at a later pass.
- Normalize.NormalizeColor: exact reals, not float32.
- Normalize.NormalizeMask: exact reals, not float32.
- Sample planning never reads `cfg.py`, which holds only output paths, a sample count, the process count and the queue capacity.

## Findings

| source | as written | input that shows it | evidently intended | confidence | as-written member | corrected member |
|---|---|---|---|---|---|---|
| Synthtext/gen.py:222-227 | the put is outside the `try`, so a failed attempt puts the previous `data` again, or, when `qsize() < capacity` and no attempt has succeeded yet, raises UnboundLocalError and ends the producer | a producer that generated sample s, then an attempt that raises, with room in the queue: s is put twice. A producer whose first attempt raises, with room (`qsize() < capacity`): the producer dies with UnboundLocalError | a failed sample is discarded and the producer goes on (put only after a successful attempt) | high; not executed | Queue.RunOverPutsAndCrashes | Queue.IntendedRunPutsEachSuccessAtMostOnce |
