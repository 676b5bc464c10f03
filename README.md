# YOLOTools core, modelled in Dafny

YOLOTools is a Unity library for mixed-reality headsets. It detects objects in camera frames with a
YOLO model and anchors a 3D model on each detection. Analysis runs in one of two places:

- on the device, with a customised model run layer by layer across frames;
- on a remote inference server, over HTTP.

This project models the library's core and proves properties of that model:

- **`DetectedObjects`** (`detected_object.dfy`): the immutable detection record.
- **`PostProcessor`** (`post_processor.dfy`): decoding the local model's 1×6×N output tensor and
  the server's predictions into detections.
- **`Customizer`** (`customizer.dfy`): the customisation parameters, `CustomizeModel` and the
  classification head it grafts onto the raw 1×84×N output.
- **`RemoteProtocol`** (`remote_client.dfy`): the server client's requests and its status dispatch.
- **`LocalScheduling`** (`yolo_handler.dfy`): the per-frame on-device scheduler, covering single
  flight, the layer budget, readback and publish.
- **`RemoteScheduling`** (`remote_handler.dfy`): the per-frame remote scheduler.
- **`Tools`** (`tools.dfy`): the one-call entry points, local and remote.
- **`Display`** (`display.dfy`): the anchoring engine `ObjectDisplayManager`. It handles per-class
  slots, the per-call limit of three per class, duplicate suppression, the global cap, moving mode
  and rescaling.
- **`Geometry`**, **`Wrappers`** and **`Arithmetic`** hold support definitions.

How the model is built:

- Objects whose fields the source updates are classes: `YOLOHandler`, `RemoteYOLOHandler`,
  `ObjectDisplayManager`, `RemoteYOLOClient`, and the customiser's statics.
- The scheduler classes are proved against a ghost `State()` and a transition function
  (`UpdateSpec`, `CompleteSpec`, `RemoteUpdateSpec`, `AnalyseCompletedSpec`). The lemmas about
  scheduling are stated over those functions.
- The display manager's loop is proved equal to the functional `PlaceAll`. The population
  invariant and the placement rules are lemmas about `PlaceAll`.
- Engine services are explicit inputs:
  - raycasts and the world pose;
  - the camera projection;
  - renderer bounds;
  - the HTTP transport (`send`) and the JSON parser (`JsonDecoder`);
  - image encoders;
  - the inference engine's faults, the layer count and the read-back output.
- Asynchronous continuations are explicit event methods: the readback completion and
  `AnalyseImage` after its `await`.

`UploadCustomModel(Async)` in `YOLOTools.cs` carries a comment that it never returns false, since
failures throw. The code returns the body's `success` field. So a 2xx response whose body says
`success: false` does return false, as `Tools.UploadFalseOnlyFromBody` shows.

In `RemoteYOLOHandler.AnalyseImage` (YOLO/RemoteYOLOHandler.cs:144-153) the JPEG encoding runs
before the `try`. If it throws, the awaitable faults unobserved, the analysis never completes,
and `m_inferencePending` stays true: every later `Update` returns at once, as
`RemoteScheduling.PendingStaysWithoutCompletion` states.

## Model

| member | source | states |
|---|---|---|
| Geometry.Trunc | YOLO/ObjectDetection/DetectedObject.cs:18 | C#'s `(int)` cast on a float truncates toward zero. The result is within one of the input, on the side of zero, and keeps the input's sign. |
| Geometry.TruncOfInt | YOLO/YOLOPostprocessor.cs:29 | The cast leaves a whole number, such as a class index written as a float, unchanged. |
| Geometry.TruncError | YOLO/ObjectDetection/DetectedObject.cs:18 | The cast moves a value by strictly less than one. |
| Geometry.Abs | YOLO/Display/ObjectDisplayManager.cs:165-166 | `Math.Abs` is non-negative and equals the value or its negation. |
| Geometry.SquaredDistance | YOLO/Display/ObjectDisplayManager.cs:203-204 | The squared `Vector3.Distance` is never negative. |
| Geometry.SquaredDistanceToSelf | YOLO/Display/ObjectDisplayManager.cs:203 | A point is at distance zero from itself. |
| DetectedObjects.NewDetectedObject | YOLO/ObjectDetection/DetectedObject.cs:13-19 | Class, name and confidence are stored unchanged. The box size is the truncated size. The box origin plus half the untruncated size is the truncated centre. |
| DetectedObjects.CentreExactForWholeNumbers | YOLO/ObjectDetection/DetectedObject.cs:18 | With whole-number centre and size, the box is centred exactly on the given centre. |
| DetectedObjects.CentreError | YOLO/ObjectDetection/DetectedObject.cs:18 | In general the box centre ends up less than 1.5 pixels from the given centre on each axis. |
| DetectedObjects.SizeError | YOLO/ObjectDetection/DetectedObject.cs:18 | A non-negative size shrinks by less than one pixel and never grows. |
| PostProcessor.ClassName | YOLO/YOLOPostprocessor.cs:35 | `GetValueOrDefault(id, null)` gives a name exactly when the id is in the table, and then the table's entry. |
| PostProcessor.ColumnObject | YOLO/YOLOPostprocessor.cs:29-37 | A kept column's detection carries the column's confidence, the truncated class value as its class and that class's table name. Its box has the truncated scaled size; its origin plus half the scaled size is the truncated scaled centre. x is scaled by the width scale, y by the height scale. |
| PostProcessor.Kept | YOLO/YOLOPostprocessor.cs:25-39 | The loop yields at most one detection per column, so none from an empty tensor, and none below the confidence threshold. |
| PostProcessor.KeptMembership | YOLO/YOLOPostprocessor.cs:25-39 | A detection is produced exactly when some column with confidence at or above the threshold yields it. The comparison is `<` to skip, so equality is kept. Both directions are stated. |
| PostProcessor.Insert | YOLO/YOLOPostprocessor.cs:41 | One insertion step of the sort adds exactly the new element to the multiset. |
| PostProcessor.InsertSorted | YOLO/YOLOPostprocessor.cs:41 | Inserting into a list sorted by descending confidence keeps it sorted. |
| PostProcessor.SortByConfidence | YOLO/YOLOPostprocessor.cs:41 | The `List.Sort` with the reversed confidence comparison gives a permutation of its input, sorted non-increasing by confidence. |
| PostProcessor.SortKeepsElements | YOLO/YOLOPostprocessor.cs:41 | Sorting keeps the length and exactly the same elements. |
| PostProcessor.PostProcess | YOLO/YOLOPostprocessor.cs:16-46 | The result is sorted by descending confidence. It is a permutation of the detections of the kept columns, with x scaled by width / size and y by height / size. It has at most one detection per column, none below the threshold. |
| PostProcessor.ScalingExample | YOLO/YOLOPostprocessor.cs:22-33 | A 1280×960 frame at size 640 maps the column (320, 320, 100, 100) to centre (640, 480) and size (200, 150). |
| PostProcessor.UnknownClassHasNoName | YOLO/YOLOPostprocessor.cs:29-37 | A class index missing from the table still gives a detection, with that index and a null name. |
| PostProcessor.CornersToCentre | YOLO/YOLOPostprocessor.cs:54-58 | The centre-form box has the server's corners as its exact edges. |
| PostProcessor.RemoteKeptAppend | YOLO/YOLOPostprocessor.cs:48-62 | The remote decoder does not sort. Decoding a concatenation is the concatenation of the decodings, so server order is kept. |
| PostProcessor.RemoteKeptSingle | YOLO/YOLOPostprocessor.cs:53 | A single prediction is kept exactly when its confidence reaches the threshold. |
| PostProcessor.RemoteKept | YOLO/YOLOPostprocessor.cs:51-61 | The remote loop yields at most one detection per prediction, and none below the confidence threshold. |
| PostProcessor.RemoteKeptSound | YOLO/YOLOPostprocessor.cs:48-62 | Each detection carries the class id, name and confidence of some prediction that reaches the threshold. |
| PostProcessor.RemoteYOLOPostprocess | YOLO/YOLOPostprocessor.cs:48-62 | The loop computes exactly the kept, converted predictions in server order. |
| Customizer.NewCustomizationParameters | YOLO/ObjectDetection/Utilities/YOLOCustomizer.cs:122-144 | Head, NMS and thresholds are stored. Quantisation is on exactly when a level other than `None` is requested. The type is Uint8 only for `Uint8`, otherwise the initial Float16. |
| Customizer.QuantizationRoundTrip | YOLO/ObjectDetection/Utilities/YOLOCustomizer.cs:115-141 | The parameters lose nothing: the requested quantisation level can be read back from them. |
| Customizer.YOLOCustomizer.constructor | YOLO/ObjectDetection/Utilities/YOLOCustomizer.cs:13-16 | The statics start with NMS off and both thresholds at 0.5. |
| Customizer.YOLOCustomizer.CustomizeModel | YOLO/ObjectDetection/Utilities/YOLOCustomizer.cs:18-50 | The statics are written only if loading succeeded. The result is true, with a model, exactly when no reachable foreign call throws. The model has the head only when asked for, NMS with the given thresholds only when asked for, and the requested quantisation. |
| Customizer.ArgMax | YOLO/ObjectDetection/Utilities/YOLOCustomizer.cs:69-73 | `ArgMax` without `selectLastIndex` returns the index of the first maximum. |
| Customizer.ClassRows | YOLO/ObjectDetection/Utilities/YOLOCustomizer.cs:69-73 | The class slice (rows 4..83) is non-empty and at most 80 long. |
| Customizer.Gather | YOLO/ObjectDetection/Utilities/YOLOCustomizer.cs:90-94 | Output j of `Gather` is the input at index j of the index list. |
| Customizer.Concat | YOLO/ObjectDetection/Utilities/YOLOCustomizer.cs:103 | The concatenation keeps one column per input column. |
| Customizer.HeadOutput | YOLO/ObjectDetection/Utilities/YOLOCustomizer.cs:52-106 | The head emits one column per raw column without NMS and one per kept index with NMS. Each column's class row holds a whole class index from 0 to 79. |
| Customizer.HeadFeedsDecoder | YOLO/ObjectDetection/Utilities/YOLOCustomizer.cs:52-106 | Without NMS, each output column carries the raw box in rows 0..3. Row 4 holds the index of the most confident class, which the decoder's truncation reads back. Row 5 holds that class's confidence, the maximum of the class rows. |
| Customizer.NMSKeepsColumnsAligned | YOLO/ObjectDetection/Utilities/YOLOCustomizer.cs:79-96 | With NMS, one index list gathers coordinates, ids and scores alike. So output column j is exactly un-suppressed column `indices[j]`. |
| Customizer.RowTimes | YOLO/ObjectDetection/Utilities/YOLOCustomizer.cs:89 | The `MatMul` of a box row with the 4×4 matrix is four long. |
| Customizer.CornersOfCentreBox | YOLO/ObjectDetection/Utilities/YOLOCustomizer.cs:81-89 | The centre-to-corner matrix maps (cx, cy, w, h) to (cx − w/2, cy − h/2, cx + w/2, cy + h/2). |
| Customizer.CornersRoundTrip | YOLO/ObjectDetection/Utilities/YOLOCustomizer.cs:81-89 | The remote decoder's corner-to-centre conversion undoes the matrix. |
| Customizer.CentreRoundTrip | YOLO/YOLOPostprocessor.cs:54-58 | The matrix undoes the corner-to-centre conversion. |
| RemoteProtocol.LowerChar | YOLO/RemoteYOLO/RemoteYOLOClient.cs:112 | `ToLower` maps ASCII capitals to lower-case letters and keeps every other character. |
| RemoteProtocol.ToLower | YOLO/RemoteYOLO/RemoteYOLOClient.cs:112-116 | `ToLower` keeps the length and lower-cases character by character. |
| RemoteProtocol.UploadOutcome | YOLO/RemoteYOLO/RemoteYOLOClient.cs:31-59 | The upload succeeds exactly on a 2xx status, with the parsed body. 400 and 422 fail with the server's error. Any other failure gives "Request failed: {status} {body}". |
| RemoteProtocol.AnalyseOutcome | YOLO/RemoteYOLO/RemoteYOLOClient.cs:106-131 | The analysis succeeds exactly on a 2xx status, with the parsed body. Only 400 fails with the server's error. Any other failure gives the generic message. |
| RemoteProtocol.DispatchDiffersOnlyAt422 | YOLO/RemoteYOLO/RemoteYOLOClient.cs:42-54 | The two endpoints fail on the same statuses with the same message, except 422. The upload reads 422 as a structured failure and the analysis reads it as generic. |
| RemoteProtocol.ModelFieldRoundTrip | YOLO/RemoteYOLO/RemoteYOLOClient.cs:113-115 | The `model` field reads back as the choice sent: `custom`, or the lower-cased built-in model. |
| RemoteProtocol.FormatFieldRoundTrip | YOLO/RemoteYOLO/RemoteYOLOClient.cs:112 | The lower-cased `format` field reads back as the format sent. |
| RemoteProtocol.LowerModelNames | YOLO/RemoteYOLO/RemoteYOLOClient.cs:244-257 | The four model names lower-case to the server's `yolo11n/s/m/l`. |
| RemoteProtocol.LowerFormatNames | YOLO/RemoteYOLO/RemoteYOLOClient.cs:244-257 | The three format names lower-case to `ncnn`, `onnx` and `pytorch`. |
| RemoteProtocol.UploadRequest | YOLO/RemoteYOLO/RemoteYOLOClient.cs:31-37 | The upload goes over plain HTTP to the configured host's `/api/custom-model` endpoint. Its form is the single file field `model`, named `model.pt`, holding the model bytes unchanged. |
| RemoteProtocol.AnalyseRequest | YOLO/RemoteYOLO/RemoteYOLOClient.cs:106-116 | The analysis goes over plain HTTP to the configured host's `/api/analyse` endpoint. Its form has three fields in order: `format`, which the server reads back as the chosen format; `model`, read back as `custom` when the custom model is on and otherwise as the chosen model; and `image`, named `image.jpg`, holding the image bytes unchanged. |
| RemoteProtocol.RemoteYOLOClient.constructor | YOLO/RemoteYOLO/RemoteYOLOClient.cs:19-23 | The client stores the base address it is given. |
| RemoteProtocol.RemoteYOLOClient.SetBaseAddress | YOLO/RemoteYOLO/RemoteYOLOClient.cs:19-23 | The base-address setter replaces the address. |
| RemoteProtocol.RemoteYOLOClient.UploadCustomModel | YOLO/RemoteYOLO/RemoteYOLOClient.cs:31-59 | It sends one POST to `http://{address}/api/custom-model` with the single file field `model` (`model.pt`). The outcome is the upload dispatch of the reply. |
| RemoteProtocol.RemoteYOLOClient.Analyse | YOLO/RemoteYOLO/RemoteYOLOClient.cs:106-131 | It sends one POST to `/api/analyse` with the lower-cased format, the model choice and the image (`image.jpg`), in that order. The outcome is the analyse dispatch of the reply. |
| RemoteScheduling.RemoteUpdateSpec | YOLO/RemoteYOLOHandler.cs:91-120 | One `Update` keeps the stored response and leaves the handler not done. It starts at most one analysis, and only by sending the frame's texture. It publishes at most one list, the kept predictions of the stored response. |
| RemoteScheduling.AnalyseCompletedSpec | YOLO/RemoteYOLOHandler.cs:155-166 | The continuation ends one analysis in flight and clears the pending flag, whether the request succeeded or threw. It sends and publishes nothing. |
| RemoteScheduling.RemoteUpdateKeepsValid | YOLO/RemoteYOLOHandler.cs:91-120 | `Update` never leaves pending and done both set, and done always has a response. |
| RemoteScheduling.AnalyseCompletedKeepsValid | YOLO/RemoteYOLOHandler.cs:142-167 | The analysis continuation keeps the same invariant. |
| RemoteScheduling.PendingIsNoOp | YOLO/RemoteYOLOHandler.cs:93 | While an analysis is pending, `Update` changes nothing. |
| RemoteScheduling.PendingStaysWithoutCompletion | YOLO/RemoteYOLOHandler.cs:91-93 | Only the analysis continuation clears the pending flag. Until it runs, any number of `Update` calls leaves the handler exactly as it was. |
| RemoteScheduling.IdleStartsOneAnalysis | YOLO/RemoteYOLOHandler.cs:97-104 | From idle, exactly one analysis starts exactly when the camera and a texture are present, and it sends that texture. The pending flag is then set unless `CopyFrom` threw. Nothing is published. |
| RemoteScheduling.DonePublishesAndReturnsToIdle | YOLO/RemoteYOLOHandler.cs:105-112 | From done, one call clears both flags and publishes the kept predictions in server order. They go to the display exactly when no subscriber threw and a display is present. |
| RemoteScheduling.CompletionSetsFlags | YOLO/RemoteYOLOHandler.cs:155-166 | A response marks the analysis done and stores it. A failure leaves the handler idle. Either way the analysis is no longer pending. |
| RemoteScheduling.RoundPublishesResponse | YOLO/RemoteYOLOHandler.cs:91-167 | Over a whole round (start, answer, next `Update`), the predictions at or above the threshold are published exactly once. |
| RemoteScheduling.RemoteYOLOHandler.constructor | YOLO/RemoteYOLOHandler.cs:55-89 | The serialised settings are stored, with no client, an idle handler and nothing sent or published. |
| RemoteScheduling.RemoteYOLOHandler.Start | YOLO/RemoteYOLOHandler.cs:55-89 | A fresh client is made on the configured address. A custom model is uploaded only when one is requested and present. The custom model stays on exactly when that upload succeeded. The scheduling state is unchanged. |
| RemoteScheduling.RemoteYOLOHandler.UploadCustomModelAsync | YOLO/RemoteYOLOHandler.cs:122-134 | The custom model is on exactly when a client exists, the model is present and its upload succeeded. |
| RemoteScheduling.RemoteYOLOHandler.Update | YOLO/RemoteYOLOHandler.cs:91-120 | The method follows `RemoteUpdateSpec` and keeps the invariant. |
| RemoteScheduling.RemoteYOLOHandler.OnAnalyseImageResumed | YOLO/RemoteYOLOHandler.cs:142-167 | It sends the analyse request for the current settings. A missing client fails. The state follows `AnalyseCompletedSpec` and keeps the invariant. |
| RemoteScheduling.RemoteYOLOHandler.Finish | YOLO/RemoteYOLOHandler.cs:155-166 | The `try`/`catch` around the request follows `AnalyseCompletedSpec`. |
| LocalScheduling.Fail | YOLO/YOLOHandler.cs:218-225 | The outer `catch` clears pending, drops the result, disposes the tensors once and leaves `readingBack` alone. |
| LocalScheduling.UpdateSpec | YOLO/YOLOHandler.cs:151-226 | One `Update` publishes and displays nothing, and leaves the class table, the handler and the budget alone. It creates at most one iterator. A completion it registers comes with `readingBack` raised on a held result of a pending pass. |
| LocalScheduling.CompleteSpec | YOLO/YOLOHandler.cs:191-214 | The continuation consumes the registered completion and creates no iterator. It leaves the pass not pending with no result held. It publishes and displays at most the one decoded list. |
| LocalScheduling.UpdateKeepsValid | YOLO/YOLOHandler.cs:151-226 | `Update` keeps the invariant: a registered completion belongs to a pending pass with a texture. |
| LocalScheduling.CompleteKeepsValid | YOLO/YOLOHandler.cs:191-214 | The readback completion keeps the invariant. |
| LocalScheduling.GuardsAreNoOps | YOLO/YOLOHandler.cs:153-159 | Without classes, handler or camera, or while reading back, `Update` changes nothing. |
| LocalScheduling.NewPassOnlyFromIdle | YOLO/YOLOHandler.cs:163-173 | Single flight holds. A new iterator is created exactly when the guards pass, no pass is pending, a texture is there and `RunWithLayerControl` returns. A missing texture only clears the stored texture. A pending pass never gains layers. |
| LocalScheduling.AtMostBudgetPerCall | YOLO/YOLOHandler.cs:175-184 | With a positive budget, one call runs at most `layersPerFrame` layers. |
| LocalScheduling.PausesIsQuotient | YOLO/YOLOHandler.cs:175-184 | The number of full budgets in a pass is ⌊remaining / budget⌋. |
| LocalScheduling.PendingPassReadsBackOnTime | YOLO/YOLOHandler.cs:175-189 | A pending pass with budget k ≥ 1 does not read back for ⌊remaining / k⌋ calls, then reads back on the next call. |
| LocalScheduling.StartingCallSteps | YOLO/YOLOHandler.cs:163-184 | When the set-up succeeds, the call that starts a pass also steps it, just as if that pass had been pending. |
| LocalScheduling.FailedSetupDropsPass | YOLO/YOLOHandler.cs:166-225 | When `RunWithLayerControl` or `CopyFrom(ReferenceCamera)` throws, the outer `catch` runs in the same call with no layer stepped. The pass is not pending, nothing is read back, the tensors are disposed once and the texture is kept. Only the `CopyFrom` failure has created an iterator. |
| LocalScheduling.StuckAfterLostReadback | YOLO/YOLOHandler.cs:186-189 | Once `readingBack` is set with no completion registered, or after a failed `GetResult`, every later `Update` is a no-op. |
| LocalScheduling.FailedReadbackLeavesReadingBack | YOLO/YOLOHandler.cs:208-214 | A failed readback clears pending and disposes, but leaves `readingBack` set. Nothing is published. |
| LocalScheduling.SuccessfulReadbackPublishes | YOLO/YOLOHandler.cs:191-207 | A successful completion clears both flags and disposes the clone once. It disposes the tensors once, or twice if a subscriber throws. It publishes the list once and displays it exactly when a display is present and no subscriber threw. |
| LocalScheduling.RunLayers | YOLO/YOLOHandler.cs:175-184 | The `MoveNext` loop stops after exactly k layers. With k = 0 it stops after the first layer, where `++it % 0` throws. It stops earlier if the pass is exhausted, and otherwise has consumed the rest. |
| LocalScheduling.YOLOHandler.constructor | YOLO/YOLOHandler.cs:117 | The settings are stored, the class table is an empty map, and the handler is idle with nothing published. |
| LocalScheduling.YOLOHandler.Start | YOLO/YOLOHandler.cs:121-149 | The class table is loaded, or null. The handler exists only when a model was built (customised, or loaded as is when customisation is off), and then a budget of 0 becomes 1 and the model's input size is taken. Nothing else changes. |
| LocalScheduling.YOLOHandler.SetLayersPerFrame | YOLO/YOLOHandler.cs:36 | The public budget field may be set to any value, including 0. Only it changes. |
| LocalScheduling.YOLOHandler.HandleFailure | YOLO/YOLOHandler.cs:218-225 | The outer `catch` block follows `Fail`. |
| LocalScheduling.YOLOHandler.Update | YOLO/YOLOHandler.cs:151-226 | The method follows `UpdateSpec`, including the two set-up failures, and keeps the invariant. |
| LocalScheduling.YOLOHandler.BeginPass | YOLO/YOLOHandler.cs:163-173 | A fresh pass over all layers is marked pending and counted. |
| LocalScheduling.YOLOHandler.StepPass | YOLO/YOLOHandler.cs:175-189 | The stepping loop follows `Step`: one budget of layers, or the readback, or the `% 0` failure. |
| LocalScheduling.YOLOHandler.BeginReadback | YOLO/YOLOHandler.cs:186-189 | `readingBack` is raised. A float output registers the completion, any other output does not, and a throwing peek fails. |
| LocalScheduling.YOLOHandler.OnReadbackCompleted | YOLO/YOLOHandler.cs:191-214 | The method follows `CompleteSpec` and keeps the invariant. A successful readback publishes the sorted permutation of the kept, scaled columns. |
| LocalScheduling.YOLOHandler.Decode | YOLO/YOLOHandler.cs:198-206 | It decodes as `PostProcess` promises, disposes the clone and the tensors once each, clears both flags and publishes once. |
| Tools.Decode | YOLOTools.cs:42-45 | A null output throws before any disposal. Otherwise it returns the sorted kept detections, with the result and the handler each disposed once. |
| Tools.YOLOAnalyse | YOLOTools.cs:33-46 | A failed customisation throws `ArgumentException` with the source's message, and nothing runs. Otherwise it decodes at the engine's input size, or at the requested size when the input size is not fixed. |
| Tools.YOLOAnalyseLayered | YOLOTools.cs:87-112 | As `YOLOAnalyse`, after stepping the layers with a frame yielded per full budget. A budget of 0 with layers to run throws `DivideByZeroException` and disposes nothing. |
| Tools.StepLayers | YOLOTools.cs:96-102 | The layer loop completes exactly when the budget is positive or there are no layers. It yields ⌊layers / budget⌋ frames. |
| Tools.EncodeImage | YOLOTools.cs:131-136 | JPG and PNG use their encoder. Any other enum value throws `ArgumentOutOfRangeException`. |
| Tools.Detections | YOLOTools.cs:137-139 | A request failure becomes `HttpRequestException` with the server's message. Success gives the kept predictions. |
| Tools.RemoteFlow | YOLOTools.cs:127-140 | The built-in flow sends at most one request, and none exactly when the image format is invalid. |
| Tools.CustomFlow | YOLOTools.cs:155-174 | The custom flow always sends the upload first, with at most one analysis after it. |
| Tools.RemoteYOLOAnalyse | YOLOTools.cs:127-140 | The built-in remote entry point computes `RemoteFlow`: result and requests sent. |
| Tools.AnalyseWithUpload | YOLOTools.cs:155-174 | The custom-model entry points compute `CustomFlow` for the model choice of their analyse call. |
| Tools.RemoteYOLOAnalyseCustom | YOLOTools.cs:155-174 | The custom entry point computes `CustomFlow` with the uploaded (`custom`) model. |
| Tools.RemoteYOLOAnalyseCustomAsWritten | YOLOTools.cs:217-236 | The synchronous custom entry point, as written, computes `CustomFlow` with the built-in `YOLO11N` and `useCustomModel` false. |
| Tools.RemoteFlowAsksForBuiltInModel | YOLOTools.cs:131-137 | The built-in flow asks the server for exactly the model it was given. |
| Tools.RejectedUploadStopsFlow | YOLOTools.cs:159-163 | The analysis is sent exactly when the upload request succeeded, its body says `success` and the image format is valid. When the upload request fails or its body says `success` false, it throws with the server's message and nothing is analysed. |
| Tools.CustomFlowAsksForUploadedModel | YOLOTools.cs:171 | The asynchronous custom flow asks the server for the model it just uploaded. |
| Tools.SyncCustomFlowIgnoresUpload | YOLOTools.cs:233 | The synchronous custom flow asks for the built-in `yolo11n`, never for the uploaded model. |
| Tools.UploadCustomModel | YOLOTools.cs:247-254 | It sends the upload request. It returns the body's `success`, or the thrown request error. |
| Tools.UploadFalseOnlyFromBody | YOLOTools.cs:246-253 | A non-2xx status always throws. `false` is returned exactly for a 2xx reply whose body says `success: false`. |
| Display.ImageToScreen | YOLO/Display/ObjectDisplayManager.cs:365-378 | The image-to-screen mapping loses nothing: the reverse mapping recovers the image point. |
| Display.ScreenMappingRoundTrip | YOLO/Display/ObjectDisplayManager.cs:365-378 | The image-to-screen mapping (centring, y flip, 200-pixel shift) is invertible: mapping back recovers the point. |
| Display.ScreenMappingKeepsExtents | YOLO/Display/ObjectDisplayManager.cs:159-166 | A detection box keeps its width and height on screen. |
| Display.Model3DBounds | YOLO/Display/ObjectDisplayManager.cs:290-304 | `GetModel3DBounds` returns eight points. |
| Display.Model3DBoundsAreTheVertices | YOLO/Display/ObjectDisplayManager.cs:290-304 | The eight points are exactly the box's vertices: every min/max combination appears and nothing else does. |
| Display.MinOfIsLeast | YOLO/Display/ObjectDisplayManager.cs:274-285 | The running minimum is a lower bound that some point attains. |
| Display.MaxOfIsGreatest | YOLO/Display/ObjectDisplayManager.cs:274-285 | The running maximum is an upper bound that some point attains. |
| Display.Xs | YOLO/Display/ObjectDisplayManager.cs:272 | The x coordinates of the projected points, in order. |
| Display.Ys | YOLO/Display/ObjectDisplayManager.cs:272 | The y coordinates of the projected points, in order. |
| Display.ExtentStep | YOLO/Display/ObjectDisplayManager.cs:279-285 | One more point extends each running minimum and maximum by its coordinate. |
| Display.ExtentContains | YOLO/Display/ObjectDisplayManager.cs:270-288 | Every projected corner lies inside the returned rectangle. |
| Display.ScreenPoints | YOLO/Display/ObjectDisplayManager.cs:272 | There is one projected point per corner. |
| Display.ObjectDisplayManager.GetModel2DBounds | YOLO/Display/ObjectDisplayManager.cs:270-288 | The loop returns the extent of the projected corners. By `ExtentContains` and the two attainment lemmas, that is the tightest rectangle around them. |
| Display.ScaleFactor | YOLO/Display/ObjectDisplayManager.cs:172-182 | The factor is never infinite: an infinite ratio is replaced by 1. |
| Display.ScaleFactorWhenVisible | YOLO/Display/ObjectDisplayManager.cs:172-181 | With non-zero current extents, the factor is the policy's ratio: width, height, average, minimum or maximum. |
| Display.ZeroWidthClampsToOne | YOLO/Display/ObjectDisplayManager.cs:172-182 | With zero current width, WIDTH, MAX and AVERAGE give 1, and MIN gives the height ratio. |
| Display.ApplyFactor | YOLO/Display/ObjectDisplayManager.cs:184-185 | A factor of 1 leaves the scale unchanged. |
| Display.ScreenSize | YOLO/Display/ObjectDisplayManager.cs:159-166 | The detection's on-screen size is the absolute box size. |
| Display.Rescaled | YOLO/Display/ObjectDisplayManager.cs:156-186 | Rescaling changes only the model's scale. |
| Display.ObjectDisplayManager.RescaleObject | YOLO/Display/ObjectDisplayManager.cs:156-186 | The method computes `Rescaled`. |
| Display.ObjectDisplayManager.UpdateModel | YOLO/Display/ObjectDisplayManager.cs:188-197 | The model takes the pose's position and the slot number. It keeps the surface normal only when depth raycasting is on and the hit confidence is at least 0.5; otherwise it faces the camera. Then it is rescaled. |
| Display.UpdaterForImplements | YOLO/Display/ObjectDisplayManager.cs:188-197 | The updater used by `DisplayModels` is `UpdateModel`'s placement. |
| Display.Place | YOLO/Display/ObjectDisplayManager.cs:89-133 | One iteration keeps every class's slots contiguous (0 .. size − 1). |
| Display.Settle | YOLO/Display/ObjectDisplayManager.cs:114-133 | Spawning, moving or only counting keeps contiguity. |
| Display.PlaceAll | YOLO/Display/ObjectDisplayManager.cs:89-134 | The whole loop keeps contiguity. |
| Display.SlotsSameKeys | YOLO/Display/ObjectDisplayManager.cs:102-108 | Adding an empty class entry, or replacing a model in its slot, leaves the set of occupied slots unchanged. |
| Display.SlotsAddOne | YOLO/Display/ObjectDisplayManager.cs:122 | Filling a fresh slot adds exactly one occupied slot. |
| Display.IsDuplicate | YOLO/Display/ObjectDisplayManager.cs:199-212 | With no models of the class, or a non-positive threshold, a position is never a duplicate. |
| Display.TooCloseIsDistanceBelowRadius | YOLO/Display/ObjectDisplayManager.cs:203-205 | The squared comparison equals the source's `distance < threshold × radius`, for the non-negative distance and bounding radius. |
| Display.PlaceKeepsInvariant | YOLO/Display/ObjectDisplayManager.cs:89-133 | One iteration keeps the invariant. Slots stay contiguous, the counter equals the number of spawned models, and it stays between 0 and the cap. |
| Display.SettleKeepsInvariant | YOLO/Display/ObjectDisplayManager.cs:114-133 | Spawning, moving or counting keeps that invariant. |
| Display.AppendKeepsValid | YOLO/Display/ObjectDisplayManager.cs:119-125 | A spawn below the cap keeps the invariant. |
| Display.ContiguousAppend | YOLO/Display/ObjectDisplayManager.cs:122 | `modelList.Add(modelList.Count, …)` uses a fresh key and keeps the slots contiguous. |
| Display.ReplaceKeepsValid | YOLO/Display/ObjectDisplayManager.cs:128-132 | Moving an existing model keeps the invariant. |
| Display.PlaceAllKeepsInvariant | YOLO/Display/ObjectDisplayManager.cs:81-137 | A whole `DisplayModels` call keeps the invariant, so the model count never exceeds `MaxModelCount`. |
| Display.AtMostThreePerClass | YOLO/Display/ObjectDisplayManager.cs:87-117 | Within a call no class is counted more than three times, and every counted class at least once. |
| Display.UnmappedIsSkipped | YOLO/Display/ObjectDisplayManager.cs:91-100 | A detection with no name, or with no or a null model for its name, changes nothing. |
| Display.DuplicateChangesNoModel | YOLO/Display/ObjectDisplayManager.cs:199-212 | A duplicate neither spawns, moves nor counts. Being a duplicate needs a nearby model, so the class already had an entry. |
| Display.SpawnAddsOneModel | YOLO/Display/ObjectDisplayManager.cs:119-125 | When spawning, the placed model fills slot number old-size of its class with slot id = running count. The counter and the class count each rise by one, and nothing else changes. |
| Display.MovingModeUpdatesSlot | YOLO/Display/ObjectDisplayManager.cs:126-133 | In moving mode, when the n-th detection of a class has a model, slot n − 1 is replaced in place and the counter is unchanged. |
| Display.CapStopsSpawning | YOLO/Display/ObjectDisplayManager.cs:119 | At the cap, a whole call spawns nothing. The counter, each class's slots and all existing entries keep their shape. |
| Display.CapStopsSpawningStep | YOLO/Display/ObjectDisplayManager.cs:119 | At the cap, a single detection keeps that shape. |
| Display.KeepsShapeTransitive | YOLO/Display/ObjectDisplayManager.cs:119 | Keeping the shape composes across iterations. |
| Display.ObjectDisplayManager.constructor | YOLO/Display/ObjectDisplayManager.cs:19-40 | The settings are stored, with an empty model map and a zero counter. |
| Display.ObjectDisplayManager.SetMovingObjects | YOLO/Display/ObjectDisplayManager.cs:33 | Only the moving-mode flag changes, and the invariant holds. |
| Display.ObjectDisplayManager.DisplayModels | YOLO/Display/ObjectDisplayManager.cs:81-137 | The loop over the detections, with fresh per-call counts, computes `PlaceAll` and keeps the invariant. |
| Display.ObjectDisplayManager.DisplayModel | YOLO/Display/ObjectDisplayManager.cs:91-133 | One loop iteration computes `Place`. |
| Display.ObjectDisplayManager.SettleModel | YOLO/Display/ObjectDisplayManager.cs:114-133 | The count update and the spawn-or-move branch compute `Settle`. |
| Display.ObjectDisplayManager.ClearModels | YOLO/Display/ObjectDisplayManager.cs:141-153 | Every model is removed and the counter is reset to 0. The settings are unchanged. |

## Left out

- The engine services are inputs because they are foreign code:
  - the camera, `VideoFeedManager` and passthrough feeds;
  - the raycasts (`GetObjectWorldCoordinates`, `ImageToWorldCoordinates`, `AverageRaycastHits`, `FireRaycastSpread`);
  - the camera projection and renderer bounds.
  
  The model receives the resulting pose, projection and bounds as a `Scene`.
- The inference engine, Sentis, is foreign code: graph compilation, `Run`, the layer iterator, GPU readback, quantisation and model saving and loading. The model receives the customiser's faults, a layer count and the read-back columns. `Customizer.HeadOutput` describes the head's data flow over sequences. The engine's NMS is an input, as the list of indices it keeps.
- The HTTP transport and JSON deserialisation are inputs (`send`, `JsonDecoder`), because they are foreign code. A `null` deserialised body is not modelled.
- RemoteProtocol.RemoteYOLOClient.UploadCustomModel / Analyse: a transport throw from `SendAsync` (no response, a time-out) is not modelled, because `send` always returns a response. The sources document it as "no response". The handlers' catch-all blocks (YOLO/RemoteYOLOHandler.cs:83 and :162) treat such a throw like any failed outcome. `RemoteScheduling.RemoteYOLOHandler.Start` covers the upload's failure case and `RemoteScheduling.RemoteYOLOHandler.Finish` the analysis's. The tool entry points would pass it on to their callers. It is wrapped in `AggregateException` where the client blocks on `.Result` (the synchronous `UploadCustomModel` and `Analyse`). The synchronous custom flow's analysis goes through `GetAwaiter().GetResult()` and rethrows it unwrapped.
- The JSON class table in `YOLOHandler.Start` is an input (`classTable`), because it comes from a file. So is whether customisation produced a model there (`modelReady`). Camera setup, the metrics file and permission requests are left out.
- Concurrency and `async`/`await` are not modelled directly. Each continuation is an event method that the caller invokes. The synchronous and asynchronous variants of an entry point share one member.
- `Texture2DToJPGAsync` and `Texture2DToPNGAsync` are inputs (`Encoders`), because they call the engine's encoders.
- IEEE floating point is not modelled. Values are mathematical reals. The scale factor's division by zero is the small `Ratio` type, with infinity and NaN. Division by a zero input size is excluded by requiring it positive: `PostProcessor.PostProcess` requires `inputSize > 0` and the tool entry points require a positive analysis size.
- LocalScheduling.YOLOHandler.Update: a throw from the layer iterator's `MoveNext` in the middle of a pass is not modelled, because it is internal to the inference engine. The throws from `RunWithLayerControl` and `CopyFrom` during set-up, and from `% 0`, are modelled.
- Geometry.Trunc: does not model C#'s `(int)` cast outside the 32-bit range.
- Display.ScaleFactor: the switch's default branch is left out because it is unreachable, since the enum has exactly five members.
- Display.ObjectDisplayManager.UpdateModel: `LookAt` is recorded as "faces the camera" rather than computed as a quaternion. `SetActive(true)` is not modelled.
- Tools.YOLOAnalyse: the backend type that `YOLOAnalysisParameters` carries is not modelled, because it only picks where the engine runs.
- Profiler samples and `Debug.Log` calls are left out, because they have no effect on results.
- The UI controllers, `YOLOProvider`, `TextureAnalyser`, the editor importer and the camera managers are not part of this model.

## Findings

| source | as written | input that shows it | evidently intended | confidence | as-written member | corrected member |
|---|---|---|---|---|---|---|
| YOLOTools.cs:233 | The synchronous `RemoteYOLOAnalyse` with a custom model uploads the model. It then analyses with `YOLOModel.YOLO11N` and leaves `useCustomModel` at its default, false. So the server runs the built-in yolo11n. | Any upload the server accepts, followed by a valid image format. The second request's `model` field is `yolo11n`. | Analyse with `useCustomModel: true`, as the asynchronous overload does at YOLOTools.cs:171 and as its documentation promises. | not executed | Tools.RemoteYOLOAnalyseCustomAsWritten (shown by Tools.SyncCustomFlowIgnoresUpload) | Tools.RemoteYOLOAnalyseCustom (proved by Tools.CustomFlowAsksForUploadedModel) |
