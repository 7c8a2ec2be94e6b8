# Cat classifier pipeline: a Dafny model

The app photographs a cat or picks an image and classifies it on the phone with a MobileNetV2
network exported to ONNX. This project models and proves properties of five parts of it:

- **Preprocessing** (`src/utils/preprocess.ts`). A decoded 224×224 RGBA raster becomes a planar,
  normalised CHW tensor. `preprocess.dfy` models this as a method that fills an `array<real>` in
  one loop, proved equal to a specification function `Chw`. Lemmas about `Chw` cover:
  - the layout;
  - which bytes each plane reads;
  - alpha being ignored;
  - the absence of clamping.
- **Post-processing** (`src/hooks/useCatClassifier.ts`), in `postprocess.dfy`:
  - output-name negotiation with the probability and logit alias lists;
  - the probability path or the max/softmax path, with the two loops as methods;
  - stable top-K;
  - the `cls_<i>` label fallback.
- **The classifier hook's state** (`src/hooks/useCatClassifier.ts`), in `classifier.dfy`. Class
  `Classifier` holds the hook's state and refs as fields: status, `busy`, `ready`, the session,
  the top-K list and the silent-status memory. Its methods are `classifyBase64`, `loadModel`,
  `resetSilentStatus` and the setters. The debounce rule is also specified as a function over a
  run of silent classifications.
- **The camera loop** (`src/hooks/useCameraLoop.ts`), in `camera_loop.dfy`. It is a state machine
  with one method per event:
  - toggling the camera;
  - the camera being ready or failing to mount;
  - the loop effect;
  - the timer firing;
  - a capture starting and finishing;
  - unmounting.

  The class invariant `Valid()` captures the JavaScript event loop's pending work: the armed timer
  and the captures in flight.
- **Checkpoint handling** (`scripts/export_to_onnx.py`), in `export_onnx.dfy`:
  - unwrapping `state_dict` / `model_state_dict`;
  - `strip_prefix` and the re-keying comprehension;
  - the classifier-head abort;
  - the exported tensor names, which are linked back to the app's output-name negotiation.

`config.dfy` holds the constants of `src/config/constants.ts`, and `wrappers.dfy` holds `Option` and `Result`.

Every pixel and probability is a `real`. `Math.exp` is an arbitrary function `real -> real`.
Lemmas that need it positive or monotone say so.

Two handlers are split at their awaits into separate events:
- `loadModel` runs as `BeginLoadModel` (before its first await) then `FinishLoadModel`.
- A camera capture is `CaptureFrame` (up to the first await) plus `CaptureFinished` (everything
  after it).

Two others run as single events, each await folded in: `classifyBase64` (the await of
`session.run`) and `toggleCamera` (the await of `requestPermission`). "Left out" says what this
loses. The ghost `busyLog` of `classifyBase64` records every value written to `busy`.

## Model

| member | source | states |
|---|---|---|
| Preprocess.ChwFromRgba224 | my-cat-classifier/src/utils/preprocess.ts:13-44 | fails with the decoded width and height exactly when the image is not 224×224, with no resize or crop; otherwise returns a fresh array of 150528 = 3·224·224 entries equal to `Chw`, and every output index is written exactly once |
| Preprocess.ChwEntries | my-cat-classifier/src/utils/preprocess.ts:33-41 | entry `c·size + i` is `(data[4i+c]/255 − mean[c]) / std[c]` for c = 0, 1, 2 (red, green, blue) |
| Preprocess.PlaneDependsOnlyOnChannel | my-cat-classifier/src/utils/preprocess.ts:38-40 | plane `c` is unchanged by any change to bytes outside channel `c`: planar layout |
| Preprocess.AlphaIgnored | my-cat-classifier/src/utils/preprocess.ts:33-36 | rasters that differ only in alpha bytes give the same tensor |
| Preprocess.UniformChannel | my-cat-classifier/src/utils/preprocess.ts:34-40 | a channel with one value `v` everywhere gives a plane constant at `(v/255 − mean[c]) / std[c]`, unclamped |
| Preprocess.NotClamped | my-cat-classifier/src/utils/preprocess.ts:38-40 | with the ImageNet constants a black red byte maps below 0 and a white one above 1 |
| Postprocess.FirstPresent | my-cat-classifier/src/hooks/useCatClassifier.ts:123-124 | the index of the first alias that occurs in the keys; every earlier alias is absent |
| Postprocess.ResolveOutputName | my-cat-classifier/src/hooks/useCatClassifier.ts:120-125 | a name exists iff there are keys, and it is one of them; it is the first probability alias present, else the first logit alias present, else the first key |
| Postprocess.ResolveOutputNameExamples | my-cat-classifier/src/hooks/useCatClassifier.ts:120-125 | `{logits}`→`logits`, `{probabilities, extra}`→`probabilities`, `{foo}`→`foo`, `{output, probs}`→`probs`, no keys → nothing |
| Postprocess.MaxOf | my-cat-classifier/src/hooks/useCatClassifier.ts:135-136 | −∞ exactly for empty data; otherwise an element of the data that bounds every element |
| Postprocess.MaxLogit | my-cat-classifier/src/hooks/useCatClassifier.ts:135-136 | the max loop returns `MaxOf(data)`: −∞ iff empty, else a member and an upper bound |
| Postprocess.Divisor | my-cat-classifier/src/hooks/useCatClassifier.ts:144 | `sum \|\| 1`: never zero, the sum when it is non-zero, 1 when it is zero |
| Postprocess.SoftmaxOf | my-cat-classifier/src/hooks/useCatClassifier.ts:135-144 | the reference definition of the logit path (shift by the maximum, exponentiate, divide by `sum \|\| 1`), one probability per logit; its properties are the three lemmas below |
| Postprocess.Softmax | my-cat-classifier/src/hooks/useCatClassifier.ts:137-144 | the exps/sum loop returns `SoftmaxOf(data, exp)` |
| Postprocess.SoftmaxInUnitInterval | my-cat-classifier/src/hooks/useCatClassifier.ts:137-144 | with a positive `exp` every probability is in (0, 1] |
| Postprocess.SoftmaxPreservesOrder | my-cat-classifier/src/hooks/useCatClassifier.ts:137-144 | with a monotone non-negative `exp` a larger logit never gets a smaller probability |
| Postprocess.ZeroSumFallback | my-cat-classifier/src/hooks/useCatClassifier.ts:144 | when every exponential is 0 the division by 1 yields all zeros instead of failing |
| Postprocess.Probabilities | my-cat-classifier/src/hooks/useCatClassifier.ts:131-145 | a probability alias passes the data through unchanged; any other name takes the softmax path; the length is kept |
| Postprocess.SortByScore | my-cat-classifier/src/hooks/useCatClassifier.ts:48 | the stable descending sort as insertion from the back; it keeps the length, and `SortByScoreRanked` proves it a ranked permutation |
| Postprocess.InsertByScoreRanked | my-cat-classifier/src/hooks/useCatClassifier.ts:48 | inserting an entry with a smaller index than the rest into a ranked list yields a ranked permutation |
| Postprocess.SortByScoreRanked | my-cat-classifier/src/hooks/useCatClassifier.ts:48 | the stable sort of index-ascending entries is a permutation ordered by descending `p`, ties by ascending index |
| Postprocess.TopK | my-cat-classifier/src/hooks/useCatClassifier.ts:45-49 | exactly `min(k, \|probs\|)` entries `(i, probs[i])` with valid, distinct indices; `p` non-increasing; ties in ascending index order; the last selected entry precedes every unselected one (higher `p`, or equal `p` and lower index), so a tie at the cut-off keeps the lower index |
| Postprocess.TopKFacts | my-cat-classifier/src/hooks/useCatClassifier.ts:45-49 | any prefix of a ranked permutation of the indexed probabilities has valid `(i, probs[i])` entries, distinct indices, non-increasing `p`, ties by ascending index, and its last entry precedes every entry left out |
| Postprocess.TopKExample | my-cat-classifier/src/hooks/useCatClassifier.ts:45-49 | `[0.7, 0.2, 0.05, 0.05]` gives indices 0, 1, 2: the tie keeps the lower index |
| Postprocess.DecimalString | my-cat-classifier/src/hooks/useCatClassifier.ts:148 | the decimal rendering of an index is non-empty, all digits, with no leading zero |
| Postprocess.DecimalRoundTrip | my-cat-classifier/src/hooks/useCatClassifier.ts:148 | reading the decimal rendering back gives the index |
| Postprocess.FallbackLabelsDistinct | my-cat-classifier/src/hooks/useCatClassifier.ts:147-150 | indices past the label list get labels starting with `cls_`, and different indices get different labels |
| Postprocess.LabelFor | my-cat-classifier/src/hooks/useCatClassifier.ts:148 | `labels[i]` when the index is in range, else `cls_` followed by digits without a leading zero that read back as `i`, which is exactly `cls_${i}` |
| Postprocess.Label | my-cat-classifier/src/hooks/useCatClassifier.ts:147-150 | one prediction per ranked entry, with `labels[i]` when present, else `cls_<i>`, and the same `p`; it never fails |
| Postprocess.Lookup | my-cat-classifier/src/hooks/useCatClassifier.ts:127-128 | the output map has a tensor under a name exactly when the name is one of its keys, and it is the data of the first output with that name |
| Postprocess.RankOutputs | my-cat-classifier/src/hooks/useCatClassifier.ts:120-150 | fails exactly when the session returned no outputs; otherwise `min(3, n)` predictions for the `n` values of the tensor under the resolved name, which are the labelled `TopK` of that tensor's probabilities |
| CatClassifier.InputName | my-cat-classifier/src/hooks/useCatClassifier.ts:116 | the first declared input name, else `input` |
| CatClassifier.ClassifyOutcome | my-cat-classifier/src/hooks/useCatClassifier.ts:105-150 | succeeds iff decoding succeeded, the image is 224×224, the run succeeded and returned outputs; then `min(3, n)` predictions; a wrong size reports that size |
| CatClassifier.ShouldRepublish | my-cat-classifier/src/hooks/useCatClassifier.ts:158-160 | a new label is always published; the remembered label is published again exactly when more than 900 ms have passed since it was |
| CatClassifier.Republished | my-cat-classifier/src/hooks/useCatClassifier.ts:155-164 | the publications of a run of silent classifications, at most one per classification; the three lemmas below state what they are |
| CatClassifier.RepublishSpacing | my-cat-classifier/src/hooks/useCatClassifier.ts:155-164 | over any run of silent classifications, each publication changes the label or comes more than 900 ms after the previous one |
| CatClassifier.RepublishedAreSightings | my-cat-classifier/src/hooks/useCatClassifier.ts:155-164 | every publication is the best label and time of one of the classifications |
| CatClassifier.QuietWithinInterval | my-cat-classifier/src/hooks/useCatClassifier.ts:158-161 | the remembered label seen again within 900 ms is never republished |
| CatClassifier.ResetForcesRepublish | my-cat-classifier/src/hooks/useCatClassifier.ts:249-251 | after the reset to `("", 0)` any non-empty label is published |
| CatClassifier.Classifier.constructor | my-cat-classifier/src/hooks/useCatClassifier.ts:78-85 | initial state: not busy, not ready, no session, no preview, empty top-K, memory `("", 0)` |
| CatClassifier.Classifier.UpdateStatus | my-cat-classifier/src/hooks/useCatClassifier.ts:290-292 | replaces the status and nothing else |
| CatClassifier.Classifier.SetPreviewUri | my-cat-classifier/src/hooks/useCatClassifier.ts:81 | the preview URI becomes the given one and nothing else changes |
| CatClassifier.Classifier.ResetSilentStatus | my-cat-classifier/src/hooks/useCatClassifier.ts:249-251 | the silent memory becomes `("", 0)` and nothing else changes |
| CatClassifier.Classifier.BeginLoadModel | my-cat-classifier/src/hooks/useCatClassifier.ts:255-256 | `ready` is false before any loading work |
| CatClassifier.Classifier.FinishLoadModel | my-cat-classifier/src/hooks/useCatClassifier.ts:267-279 | on success the session is assigned, then `ready` becomes true; on failure session and `ready` stay as they were and the status reports the failure |
| CatClassifier.Classifier.LoadModel | my-cat-classifier/src/hooks/useCatClassifier.ts:253-280 | `ready` ends true exactly when the session was created, and then the session is that one |
| CatClassifier.Classifier.Infer | my-cat-classifier/src/hooks/useCatClassifier.ts:105-150 | the try block's steps (the shape-checked CHW tensor, output-name resolution, probabilities, top-3, labels) compute `ClassifyOutcome` |
| CatClassifier.Classifier.ClassifyBase64 | my-cat-classifier/src/hooks/useCatClassifier.ts:91-184 | no session: returns nothing, touches only the status; a foreground call writes `busy` true then false, on success and error alike; a silent call never writes `busy`; the result and top-K follow `ClassifyOutcome`; silent success republishes exactly as the debounce rule says and updates the memory only then |
| CameraLoop.CameraLoop.constructor | my-cat-classifier/src/hooks/useCameraLoop.ts:41-46 | camera inactive and not ready, guard down, no timer, no loop |
| CameraLoop.CameraLoop.StopCameraCapture | my-cat-classifier/src/hooks/useCameraLoop.ts:48-56 | timer cleared, guard down, silent memory reset, camera not ready; each changed field ends at a constant, so a second stop changes nothing |
| CameraLoop.CameraLoop.CaptureFrame | my-cat-classifier/src/hooks/useCameraLoop.ts:58-62 | a capture starts iff `ready`, `cameraActive`, `cameraReady` held for its closure, a camera is mounted and the guard is down; then the guard goes up |
| CameraLoop.CameraLoop.RunLoop | my-cat-classifier/src/hooks/useCameraLoop.ts:146-151 | a cancelled loop does nothing; a live one starts a capture or, when none starts, arms the timer for itself |
| CameraLoop.CameraLoop.LoopEffect | my-cat-classifier/src/hooks/useCameraLoop.ts:133-159 | the previous loop is cancelled and capture stopped; a new loop runs iff `cameraActive && cameraReady && ready`; otherwise capture stops and "waiting for camera" shows iff active and ready; the guard, timer and captures in flight are stated in every branch, including a new loop that finds the guard still up |
| CameraLoop.CameraLoop.TimerFires | my-cat-classifier/src/hooks/useCameraLoop.ts:146-150 | the timer's loop takes its turn and keeps the timer reference; while the guard is up the tick is skipped and rescheduled, never queued |
| CameraLoop.CameraLoop.CaptureFinished | my-cat-classifier/src/hooks/useCameraLoop.ts:63-77 | a frame with a URI that was resized is classified in silent mode (never touching `busy`); the status and the silent memory follow the debounce rule, and stay as they were on every other path; the guard drops in every case; only a loop that is still live arms its next turn |
| CameraLoop.CameraLoop.ToggleCamera | my-cat-classifier/src/hooks/useCameraLoop.ts:80-110 | active: stop and deactivate, "done" only if ready; inactive and not ready: only the status changes; otherwise active exactly when access is granted, `cameraReady` and the timer untouched, and the preview cleared only when the camera is activated |
| CameraLoop.CameraLoop.HandleCameraReady | my-cat-classifier/src/hooks/useCameraLoop.ts:112-115 | the camera becomes ready and the status says so |
| CameraLoop.CameraLoop.HandleMountError | my-cat-classifier/src/hooks/useCameraLoop.ts:117-126 | the camera is always deactivated and the status reports the failure |
| CameraLoop.CameraLoop.Unmount | my-cat-classifier/src/hooks/useCameraLoop.ts:128-131 | the unmount cleanup, then the loop effect's cleanup: no live loop, capture stopped, camera inactive |
| CameraLoop.RestartWhileCapturing | my-cat-classifier/src/hooks/useCameraLoop.ts:48-62 | stopping and restarting while the live loop's capture is in flight starts a second capture before the first finishes |
| ExportOnnx.StripFirst | my-cat-classifier/scripts/export_to_onnx.py:37-41 | removes the first prefix in list order that starts the key, or returns the key when none does; the result is a suffix of the key |
| ExportOnnx.StripPrefix | my-cat-classifier/scripts/export_to_onnx.py:37-41 | `module.`, then `model.`, then `net.`: the first that matches is removed, else the key is kept; the result is a suffix, no longer than the key |
| ExportOnnx.PrefixesExclusive | my-cat-classifier/scripts/export_to_onnx.py:38 | no key starts with two of the prefixes |
| ExportOnnx.StripPrefixNotIdempotent | my-cat-classifier/scripts/export_to_onnx.py:38-40 | `module.model.x` → `model.x` → `x`: one prefix per call |
| ExportOnnx.StripPrefixKeepsPlainKey | my-cat-classifier/scripts/export_to_onnx.py:41 | `features.0.0.weight` is returned unchanged |
| ExportOnnx.Rekey | my-cat-classifier/scripts/export_to_onnx.py:42 | the dict comprehension: no more keys than entries, since colliding keys merge; `RekeyKeys` and `RekeyLaterWins` state its keys and values |
| ExportOnnx.RekeyKeys | my-cat-classifier/scripts/export_to_onnx.py:42 | the re-keyed dictionary has exactly the stripped keys |
| ExportOnnx.RekeyLaterWins | my-cat-classifier/scripts/export_to_onnx.py:42 | each stripped key holds the value of the last entry, in iteration order, that maps to it |
| ExportOnnx.RekeyCollision | my-cat-classifier/scripts/export_to_onnx.py:42 | `module.fc` then `fc`: the later value is kept |
| ExportOnnx.Get | my-cat-classifier/scripts/export_to_onnx.py:34-35 | `d[key]` is the value of an entry with that key |
| ExportOnnx.Unwrapped | my-cat-classifier/scripts/export_to_onnx.py:33-35 | the state dict used is the starting object itself or a dictionary stored at most two levels inside it; a non-dictionary start is refused |
| ExportOnnx.UnwrapOrder | my-cat-classifier/scripts/export_to_onnx.py:33-35 | `state_dict`, then `model_state_dict`, each taken only when present |
| ExportOnnx.UnwrapModuleAndLeaf | my-cat-classifier/scripts/export_to_onnx.py:33 | a saved module is unwrapped through its own state dict; a non-dictionary is refused |
| ExportOnnx.MissingKeys | my-cat-classifier/scripts/export_to_onnx.py:48 | the missing keys are exactly the network's parameters absent from the state dict |
| ExportOnnx.AbortsExactlyWithoutHead | my-cat-classifier/scripts/export_to_onnx.py:52-54 | for a network with a classifier head, export aborts iff `classifier.1.weight` or `classifier.1.bias` is absent |
| ExportOnnx.ExportCheckpoint | my-cat-classifier/scripts/export_to_onnx.py:32-64 | the script's steps refuse exactly non-dictionary checkpoints, abort exactly on a missing head, and otherwise export the re-keyed weights with input `input` and output `logits` |
| ExportOnnx.ExportedOutputTakesSoftmaxPath | my-cat-classifier/scripts/export_to_onnx.py:61 | the app resolves the exported output to `logits`, a logit alias and not a probability alias, so it applies softmax |

## Notes on the code

The model follows the code. These behaviours of the code are worth knowing:

- **No channel swap.** `classifyBase64` passes a fourth argument, `USE_BGR`, to `chwFromBase64JPEG224`
  (`useCatClassifier.ts:106`). The function takes three parameters (`preprocess.ts:13-17`), so the
  channel order is always R, G, B.
- **At most one capture in flight holds per loop only.**
  - Within one loop, a new turn is only scheduled after the previous capture has finished.
    `CaptureFinished` and the invariant `Valid()` (no loop has two captures in flight) prove this.
  - However, `stopCameraCapture` lowers `takingPictureRef` while a capture may still be awaiting
    (`useCameraLoop.ts:53`). A stop followed by a restart therefore lets the new loop start a second
    capture alongside the first. `CameraLoop.RestartWhileCapturing` exhibits this.
  - Such a stale capture still classifies its frame and publishes its status after the stop.
- **No separate numeric-error path.** An exponential sum of zero divides by 1 (`sum || 1`), so the
  softmax path never fails.

## Left out

- Base64 and JPEG decoding (`preprocess.ts:19-23`): the model starts from the decoded raster, or from `None` when decoding throws.
- Float32 rounding of the tensor and the probabilities, `NaN` and `Infinity`, and `Math.exp` itself. `exp` is a parameter, and the model does not state that the probabilities sum to 1.
- The ONNX runtime: session creation and `session.run` are given outcomes (`LoadOutcome`, `RunOutcome`). The asset staging in `prepareOnnxWithExternalData` is one of the failures in `LoadOutcome`.
- `resizeTo224Base64` and `pickImage`: image resizing and the gallery picker. The camera loop receives the resize result in `FrameOutcome`.
- React machinery. Awaits on promises that resolve at once are collapsed into the event that started them. `LoopEffect` may be called whenever an effect run could happen, not only after its dependencies change.
- Wall-clock timing: `now` is a parameter. The 800 ms capture interval is not modelled; only the order in which the armed timer fires is (`TimerFires`).
- The await of `session.run` (`useCatClassifier.ts:119`): `classifyBase64` runs as one event. So no other event ever sees `busy` true. Nor does the model show that a classification keeps the session it read at line 93 even when a reload replaces it (line 267) while the run is pending.
- The await of `requestPermission` (`useCameraLoop.ts:96`): `toggleCamera` runs as one event. So the model does not show that `ready` can change while the permission dialog is open, nor that line 103 then activates the camera without checking `ready` again.
- The debug CHW-means block, `Alert` dialogs, console logging, and the "creating session" status message shown between staging and session creation.
- The text of the status messages: each is an enumerated `Status` value.
- `my-cat-classifier/App.tsx`, `CatsApp/App.tsx` and `scripts/inspect_checkpoint.py`: these are presentation code and a diagnostic tool.
- `torch.load`, building MobileNetV2, the shape errors `load_state_dict` can raise, the unexpected-keys list and `torch.onnx.export`. The network's parameter names are a parameter of the model, and the file existence checks at lines 18-22 are not modelled.
- `ExportOnnx.Get`: returns the first entry with the key; Python dictionaries have distinct keys, so this is the only one.
- `CameraLoop.CameraLoop.CaptureFrame`: the camera reference is a boolean `cameraPresent` passed to each event, not a ref the model tracks.
