/**
 * `YOLOTools`: the one-call entry points. Local analysis customises the model, runs it
 * (all at once, or a budget of layers per frame) and decodes the output; remote analysis
 * encodes the texture, optionally uploads a custom model, and filters the server's
 * predictions. The engine, the image encoders, the transport and the JSON parser are inputs.
 */
module Tools {
  import opened Wrappers
  import opened DetectedObjects
  import opened PostProcessor
  import opened RemoteProtocol
  import opened Arithmetic
  import Customizer

  /** The exceptions these entry points can end in. */
  datatype ToolError =
    | ArgumentException(message: string)
    | ArgumentOutOfRangeException
    | HttpRequestException(message: string)
    | DivideByZeroException
    | NullReferenceException

  const CustomizationFailedMessage: string := "Could not customize provided YOLO model asset."

  /** `YOLOAnalysisParameters` (the backend type is not modelled). */
  datatype AnalysisParameters = AnalysisParameters(size: int, classes: map<int, string>, confidenceThreshold: real)

  /**
   * How the inference engine behaves for this model and texture: the customiser's faults,
   * the model's fixed input size if it has one, the number of layers the scheduler steps
   * through, and the output read back (`None` when it is not a float tensor).
   */
  datatype Engine = Engine(faults: Customizer.Faults, fixedInputSize: Option<int>, layers: nat,
                           output: Option<seq<Column>>)

  /** The `ref size` passed to the inference handler: overwritten when the model's input size is fixed. */
  function AnalysisSize(parameters: AnalysisParameters, engine: Engine): int
  {
    if engine.fixedInputSize.Some? then engine.fixedInputSize.value else parameters.size
  }

  /**
   * What post-processing and the two disposals leave: a null output throws before either
   * disposal; otherwise the detections are the sorted kept columns, and the result tensor
   * and the handler are each disposed once.
   */
  predicate DecodedAs(outcome: Result<seq<DetectedObject>, ToolError>, resultDisposals: nat, handlerDisposals: nat,
                      texture: Texture, size: int, parameters: AnalysisParameters, output: Option<seq<Column>>)
    requires size > 0
  {
    if output.None? then
      outcome == Failure(NullReferenceException) && resultDisposals == 0 && handlerDisposals == 0
    else
      outcome.Success? && SortedByConfidence(outcome.value) &&
      multiset(outcome.value) ==
      multiset(Kept(output.value, texture.width as real / size as real, texture.height as real / size as real,
                    parameters.classes, parameters.confidenceThreshold)) &&
      resultDisposals == 1 && handlerDisposals == 1
  }

  /** Post-process the read-back output, then dispose the result and the handler. */
  method Decode(texture: Texture, size: int, parameters: AnalysisParameters, output: Option<seq<Column>>)
    returns (outcome: Result<seq<DetectedObject>, ToolError>, resultDisposals: nat, handlerDisposals: nat)
    requires size > 0
    ensures DecodedAs(outcome, resultDisposals, handlerDisposals, texture, size, parameters, output)
  {
    if output.None? {
      return Failure(NullReferenceException), 0, 0;
    }
    var objects := PostProcess(output.value, texture, size, parameters.classes, parameters.confidenceThreshold);
    return Success(objects), 1, 1;
  }

  /**
   * `YOLOAnalyse` and `YOLOAnalyseAsync` (the whole model in one go): a failed
   * customisation throws `ArgumentException` before anything runs.
   */
  method YOLOAnalyse(customizer: Customizer.YOLOCustomizer, texture: Texture, modelAsset: Customizer.ModelAsset,
                     parameters: AnalysisParameters, customization: Customizer.CustomizationParameters,
                     engine: Engine)
    returns (outcome: Result<seq<DetectedObject>, ToolError>, resultDisposals: nat, handlerDisposals: nat)
    requires AnalysisSize(parameters, engine) > 0
    modifies customizer
    ensures !Customizer.CustomizationSucceeds(customization, engine.faults) ==>
              outcome == Failure(ArgumentException(CustomizationFailedMessage)) &&
              resultDisposals == 0 && handlerDisposals == 0
    ensures Customizer.CustomizationSucceeds(customization, engine.faults) ==>
              DecodedAs(outcome, resultDisposals, handlerDisposals, texture, AnalysisSize(parameters, engine),
                        parameters, engine.output)
  {
    var ok, yoloModel := customizer.CustomizeModel(modelAsset, customization, engine.faults);
    if !ok {
      return Failure(ArgumentException(CustomizationFailedMessage)), 0, 0;
    }
    var size := AnalysisSize(parameters, engine);
    outcome, resultDisposals, handlerDisposals := Decode(texture, size, parameters, engine.output);
  }

  /**
   * `YOLOAnalyseAsync` with a layer budget: step the layers, yielding a frame after every
   * `layersPerFrame` steps and restarting the count, then read back. There is no clamp: a
   * budget of 0 throws on the first step (`++it % 0`), and nothing is disposed.
   */
  method YOLOAnalyseLayered(customizer: Customizer.YOLOCustomizer, texture: Texture,
                            modelAsset: Customizer.ModelAsset, parameters: AnalysisParameters,
                            customization: Customizer.CustomizationParameters, engine: Engine, layersPerFrame: nat)
    returns (outcome: Result<seq<DetectedObject>, ToolError>, frames: nat, resultDisposals: nat, handlerDisposals: nat)
    requires AnalysisSize(parameters, engine) > 0
    modifies customizer
    ensures !Customizer.CustomizationSucceeds(customization, engine.faults) ==>
              outcome == Failure(ArgumentException(CustomizationFailedMessage)) &&
              frames == 0 && resultDisposals == 0 && handlerDisposals == 0
    ensures Customizer.CustomizationSucceeds(customization, engine.faults) && layersPerFrame == 0 && engine.layers > 0 ==>
              outcome == Failure(DivideByZeroException) && frames == 0 && resultDisposals == 0 && handlerDisposals == 0
    ensures Customizer.CustomizationSucceeds(customization, engine.faults) && (layersPerFrame >= 1 || engine.layers == 0) ==>
              frames == (if layersPerFrame == 0 then 0 else engine.layers / layersPerFrame) &&
              DecodedAs(outcome, resultDisposals, handlerDisposals, texture, AnalysisSize(parameters, engine),
                        parameters, engine.output)
  {
    var ok, yoloModel := customizer.CustomizeModel(modelAsset, customization, engine.faults);
    if !ok {
      return Failure(ArgumentException(CustomizationFailedMessage)), 0, 0, 0;
    }
    var size := AnalysisSize(parameters, engine);
    var divided;
    divided, frames := StepLayers(engine.layers, layersPerFrame);
    if !divided {
      return Failure(DivideByZeroException), 0, 0, 0;
    }
    outcome, resultDisposals, handlerDisposals := Decode(texture, size, parameters, engine.output);
  }

  /**
   * The layered loop: `MoveNext` through `layers` steps, yielding a frame whenever the
   * counter reaches a multiple of the budget and then restarting it. `completed` is false
   * when `++it % 0` throws on a first step.
   */
  method StepLayers(layers: nat, layersPerFrame: nat) returns (completed: bool, frames: nat)
    ensures completed <==> layersPerFrame >= 1 || layers == 0
    ensures frames == (if layersPerFrame == 0 then 0 else layers / layersPerFrame)
  {
    var it: nat := 0;
    var steps: nat := 0;
    frames := 0;
    while steps < layers
      invariant steps <= layers
      invariant layersPerFrame >= 1 ==> frames == steps / layersPerFrame && it == steps % layersPerFrame
      invariant layersPerFrame == 0 ==> steps == 0 && frames == 0
      decreases layers - steps
    {
      if layersPerFrame == 0 {
        return false, 0;
      }
      DivModStep(steps, layersPerFrame);
      steps := steps + 1;
      it := it + 1;
      ModOfCounter(it, layersPerFrame);
      if it % layersPerFrame == 0 {
        frames := frames + 1;   // `await Awaitable.NextFrameAsync()`
        it := 0;
      }
    }
    completed := true;
  }

  // ---- Remote analysis ---------------------------------------------------------------------

  /** `RemoteYOLOImageFormat`; `Other` stands for any integer cast to the enum outside its members. */
  datatype RemoteYOLOImageFormat = JPG | PNG | Other(value: int)

  /** The texture encoders (`Texture2DToJPGAsync` at quality 75, `Texture2DToPNGAsync`). */
  datatype Encoders = Encoders(jpg: Texture -> seq<byte>, png: Texture -> seq<byte>)

  /** The image-format `switch`. */
  function EncodeImage(imageFormat: RemoteYOLOImageFormat, texture: Texture, encoders: Encoders)
    : (r: Result<seq<byte>, ToolError>)
    ensures r.Failure? <==> imageFormat.Other?
    ensures r.Failure? ==> r.error == ArgumentOutOfRangeException
    ensures imageFormat == JPG ==> r == Success(encoders.jpg(texture))
    ensures imageFormat == PNG ==> r == Success(encoders.png(texture))
  {
    match imageFormat
    case JPG => Success(encoders.jpg(texture))
    case PNG => Success(encoders.png(texture))
    case Other(_) => Failure(ArgumentOutOfRangeException)
  }

  /** An analyse outcome as the entry points return it: the kept predictions, or the thrown request error. */
  function Detections(outcome: Result<AnalyseResponse, string>, confidenceThreshold: real)
    : (r: Result<seq<DetectedObject>, ToolError>)
    ensures r.Success? <==> outcome.Success?
    ensures r.Failure? ==> r.error == HttpRequestException(outcome.error)
  {
    match outcome
    case Success(response) => Success(RemoteKept(response.result, confidenceThreshold))
    case Failure(e) => Failure(HttpRequestException(e))
  }

  /**
   * The built-in-model flow: encode, then one analyse request. Its result and the requests
   * sent, as a function of the server's behaviour.
   */
  function RemoteFlow(texture: Texture, address: string, confidenceThreshold: real, yoloModel: YOLOModel,
                      yoloFormat: YOLOFormat, imageFormat: RemoteYOLOImageFormat, encoders: Encoders,
                      send: Request -> HttpResponse, json: JsonDecoder)
    : (r: (Result<seq<DetectedObject>, ToolError>, seq<Request>))
    ensures |r.1| <= 1 && (r.1 == [] <==> imageFormat.Other?)
  {
    var image := EncodeImage(imageFormat, texture, encoders);
    if image.Failure? then (Failure(image.error), [])
    else
      var request := AnalyseRequest(address, image.value, yoloModel, yoloFormat, false);
      (Detections(AnalyseOutcome(send(request), json), confidenceThreshold), [request])
  }

  /**
   * The custom-model flow: upload, check the body's `success`, encode, then analyse
   * with the model choice `(analyseModel, analyseCustom)`.
   */
  function CustomFlow(texture: Texture, customModel: seq<byte>, address: string, confidenceThreshold: real,
                      yoloFormat: YOLOFormat, imageFormat: RemoteYOLOImageFormat, encoders: Encoders,
                      send: Request -> HttpResponse, json: JsonDecoder, analyseModel: YOLOModel, analyseCustom: bool)
    : (r: (Result<seq<DetectedObject>, ToolError>, seq<Request>))
    ensures 1 <= |r.1| <= 2 && r.1[0] == UploadRequest(address, customModel)
  {
    var upload := UploadRequest(address, customModel);
    var uploaded := UploadOutcome(send(upload), json);
    if uploaded.Failure? then (Failure(HttpRequestException(uploaded.error)), [upload])
    else if !uploaded.value.success then (Failure(HttpRequestException(uploaded.value.error)), [upload])
    else
      var image := EncodeImage(imageFormat, texture, encoders);
      if image.Failure? then (Failure(image.error), [upload])
      else
        var request := AnalyseRequest(address, image.value, analyseModel, yoloFormat, analyseCustom);
        (Detections(AnalyseOutcome(send(request), json), confidenceThreshold), [upload, request])
  }

  /** `RemoteYOLOAnalyse` and `RemoteYOLOAnalyseAsync` with a built-in model. */
  method RemoteYOLOAnalyse(texture: Texture, address: string, confidenceThreshold: real, yoloModel: YOLOModel,
                           yoloFormat: YOLOFormat, imageFormat: RemoteYOLOImageFormat, encoders: Encoders,
                           send: Request -> HttpResponse, json: JsonDecoder)
    returns (outcome: Result<seq<DetectedObject>, ToolError>, requests: seq<Request>)
    ensures (outcome, requests) ==
            RemoteFlow(texture, address, confidenceThreshold, yoloModel, yoloFormat, imageFormat, encoders, send, json)
  {
    var client := new RemoteYOLOClient(address);
    var image := EncodeImage(imageFormat, texture, encoders);
    if image.Failure? {
      return Failure(image.error), [];
    }
    var request, analysed := client.Analyse(image.value, yoloModel, yoloFormat, false, send, json);
    if analysed.Failure? {
      return Failure(HttpRequestException(analysed.error)), [request];
    }
    var objects := RemoteYOLOPostprocess(analysed.value, confidenceThreshold);
    return Success(objects), [request];
  }

  /** The custom-model flow with an explicit model choice for the analyse request. */
  method AnalyseWithUpload(texture: Texture, customModel: seq<byte>, address: string, confidenceThreshold: real,
                           yoloFormat: YOLOFormat, imageFormat: RemoteYOLOImageFormat, encoders: Encoders,
                           send: Request -> HttpResponse, json: JsonDecoder, analyseModel: YOLOModel,
                           analyseCustom: bool)
    returns (outcome: Result<seq<DetectedObject>, ToolError>, requests: seq<Request>)
    ensures (outcome, requests) == CustomFlow(texture, customModel, address, confidenceThreshold, yoloFormat,
                                              imageFormat, encoders, send, json, analyseModel, analyseCustom)
  {
    var client := new RemoteYOLOClient(address);
    var upload, uploaded := client.UploadCustomModel(customModel, send, json);
    if uploaded.Failure? {
      return Failure(HttpRequestException(uploaded.error)), [upload];
    }
    if !uploaded.value.success {
      return Failure(HttpRequestException(uploaded.value.error)), [upload];
    }
    var image := EncodeImage(imageFormat, texture, encoders);
    if image.Failure? {
      return Failure(image.error), [upload];
    }
    var request, analysed := client.Analyse(image.value, analyseModel, yoloFormat, analyseCustom, send, json);
    if analysed.Failure? {
      return Failure(HttpRequestException(analysed.error)), [upload, request];
    }
    var objects := RemoteYOLOPostprocess(analysed.value, confidenceThreshold);
    return Success(objects), [upload, request];
  }

  /** `RemoteYOLOAnalyseAsync` with a custom model: the analysis asks for the uploaded model. */
  method RemoteYOLOAnalyseCustom(texture: Texture, customModel: seq<byte>, address: string, confidenceThreshold: real,
                                 yoloFormat: YOLOFormat, imageFormat: RemoteYOLOImageFormat, encoders: Encoders,
                                 send: Request -> HttpResponse, json: JsonDecoder)
    returns (outcome: Result<seq<DetectedObject>, ToolError>, requests: seq<Request>)
    ensures (outcome, requests) == CustomFlow(texture, customModel, address, confidenceThreshold, yoloFormat,
                                              imageFormat, encoders, send, json, YOLO11N, true)
  {
    outcome, requests := AnalyseWithUpload(texture, customModel, address, confidenceThreshold, yoloFormat,
                                           imageFormat, encoders, send, json, YOLO11N, true);
  }

  /**
   * The synchronous `RemoteYOLOAnalyse` with a custom model, as written: after uploading,
   * it analyses with `YOLO11N` and `useCustomModel` left at its default, false.
   */
  method RemoteYOLOAnalyseCustomAsWritten(texture: Texture, customModel: seq<byte>, address: string,
                                          confidenceThreshold: real, yoloFormat: YOLOFormat,
                                          imageFormat: RemoteYOLOImageFormat, encoders: Encoders,
                                          send: Request -> HttpResponse, json: JsonDecoder)
    returns (outcome: Result<seq<DetectedObject>, ToolError>, requests: seq<Request>)
    ensures (outcome, requests) == CustomFlow(texture, customModel, address, confidenceThreshold, yoloFormat,
                                              imageFormat, encoders, send, json, YOLO11N, false)
  {
    outcome, requests := AnalyseWithUpload(texture, customModel, address, confidenceThreshold, yoloFormat,
                                           imageFormat, encoders, send, json, YOLO11N, false);
  }

  /** The model choice the server reads from an analyse request's second field. */
  function RequestedModel(request: Request): Option<ModelChoice>
  {
    if |request.content| >= 2 && request.content[1].StringPart? then ParseModelField(request.content[1].text)
    else None
  }

  /** The built-in flow asks the server for exactly the model it was given. */
  lemma RemoteFlowAsksForBuiltInModel(texture: Texture, address: string, confidenceThreshold: real,
                                      yoloModel: YOLOModel, yoloFormat: YOLOFormat,
                                      imageFormat: RemoteYOLOImageFormat, encoders: Encoders,
                                      send: Request -> HttpResponse, json: JsonDecoder)
    requires !imageFormat.Other?
    ensures var r := RemoteFlow(texture, address, confidenceThreshold, yoloModel, yoloFormat, imageFormat,
                                encoders, send, json);
            RequestedModel(r.1[0]) == Some(BuiltIn(yoloModel))
  {
    ModelFieldRoundTrip(yoloModel, false);
  }

  /**
   * The custom flow stops at the upload unless the server accepted it: a failed request or
   * a body with `success` false throws with the server's message, and nothing is analysed.
   */
  lemma RejectedUploadStopsFlow(texture: Texture, customModel: seq<byte>, address: string,
                                confidenceThreshold: real, yoloFormat: YOLOFormat,
                                imageFormat: RemoteYOLOImageFormat, encoders: Encoders,
                                send: Request -> HttpResponse, json: JsonDecoder, analyseModel: YOLOModel,
                                analyseCustom: bool)
    ensures var uploaded := UploadOutcome(send(UploadRequest(address, customModel)), json);
            var r := CustomFlow(texture, customModel, address, confidenceThreshold, yoloFormat, imageFormat,
                                encoders, send, json, analyseModel, analyseCustom);
            (|r.1| == 2 <==> uploaded.Success? && uploaded.value.success && !imageFormat.Other?) &&
            (uploaded.Failure? ==> r.0 == Failure(HttpRequestException(uploaded.error))) &&
            (uploaded.Success? && !uploaded.value.success ==>
               r.0 == Failure(HttpRequestException(uploaded.value.error)))
  {
  }

  /** The asynchronous custom flow analyses with the model it just uploaded. */
  lemma CustomFlowAsksForUploadedModel(texture: Texture, customModel: seq<byte>, address: string,
                                       confidenceThreshold: real, yoloFormat: YOLOFormat,
                                       imageFormat: RemoteYOLOImageFormat, encoders: Encoders,
                                       send: Request -> HttpResponse, json: JsonDecoder)
    ensures var r := CustomFlow(texture, customModel, address, confidenceThreshold, yoloFormat, imageFormat,
                                encoders, send, json, YOLO11N, true);
            |r.1| == 2 ==> RequestedModel(r.1[1]) == Some(Custom)
  {
    ModelFieldRoundTrip(YOLO11N, true);
  }

  /**
   * The synchronous custom flow as written: whenever it gets as far as analysing, the
   * server is asked for the built-in `yolo11n`, never for the model just uploaded.
   */
  lemma SyncCustomFlowIgnoresUpload(texture: Texture, customModel: seq<byte>, address: string,
                                    confidenceThreshold: real, yoloFormat: YOLOFormat,
                                    imageFormat: RemoteYOLOImageFormat, encoders: Encoders,
                                    send: Request -> HttpResponse, json: JsonDecoder)
    ensures var r := CustomFlow(texture, customModel, address, confidenceThreshold, yoloFormat, imageFormat,
                                encoders, send, json, YOLO11N, false);
            |r.1| == 2 ==> RequestedModel(r.1[1]) == Some(BuiltIn(YOLO11N)) &&
                           RequestedModel(r.1[1]) != Some(Custom)
  {
    ModelFieldRoundTrip(YOLO11N, false);
  }

  /** `UploadCustomModel(Async)`'s return value: the body's `success`, or the thrown request error. */
  function UploadResult(response: HttpResponse, json: JsonDecoder): (r: Result<bool, ToolError>)
  {
    match UploadOutcome(response, json)
    case Success(body) => Success(body.success)
    case Failure(e) => Failure(HttpRequestException(e))
  }

  /** `UploadCustomModel` and `UploadCustomModelAsync`. */
  method UploadCustomModel(customModel: seq<byte>, address: string, send: Request -> HttpResponse, json: JsonDecoder)
    returns (uploaded: Result<bool, ToolError>, request: Request)
    ensures request == UploadRequest(address, customModel)
    ensures uploaded == UploadResult(send(request), json)
  {
    var client := new RemoteYOLOClient(address);
    var outcome;
    request, outcome := client.UploadCustomModel(customModel, send, json);
    if outcome.Failure? {
      return Failure(HttpRequestException(outcome.error)), request;
    }
    return Success(outcome.value.success), request;
  }

  /**
   * Failures throw, as the source's own comment says; but `false` is still returned when a
   * 2xx response carries a body whose `success` is false.
   */
  lemma UploadFalseOnlyFromBody(response: HttpResponse, json: JsonDecoder)
    ensures !IsSuccessStatusCode(response.status) ==> UploadResult(response, json).Failure?
    ensures UploadResult(response, json) == Success(false) <==>
              IsSuccessStatusCode(response.status) && !json.upload(response.body).success
  {
  }
}
