/**
 * The client of the remote inference server: the two multipart requests it builds and how
 * it turns an HTTP status and body into a result or a thrown `HttpRequestException`.
 * The HTTP transport and the JSON deserialiser are inputs: `send` answers a request,
 * `JsonDecoder` parses a body.
 */
module RemoteProtocol {
  import opened Wrappers

  newtype byte = x: int | 0 <= x < 256

  /** Execution format requested from the server. */
  datatype YOLOFormat = NCNN | ONNX | PYTORCH

  /** Built-in YOLO11 model requested from the server. */
  datatype YOLOModel = YOLO11N | YOLO11S | YOLO11M | YOLO11L

  /** `Enum.ToString()`: the member's declared name. */
  function FormatName(f: YOLOFormat): string
  {
    match f
    case NCNN => "NCNN"
    case ONNX => "ONNX"
    case PYTORCH => "PYTORCH"
  }

  function ModelName(m: YOLOModel): string
  {
    match m
    case YOLO11N => "YOLO11N"
    case YOLO11S => "YOLO11S"
    case YOLO11M => "YOLO11M"
    case YOLO11L => "YOLO11L"
  }

  /** `string.ToLower()` on the ASCII letters the enum names use; other characters are kept. */
  function LowerChar(c: char): (l: char)
    ensures 'A' <= c <= 'Z' ==> 'a' <= l <= 'z'
    ensures !('A' <= c <= 'Z') ==> l == c
  {
    if 'A' <= c <= 'Z' then (c as int - 'A' as int + 'a' as int) as char else c
  }

  function ToLower(s: string): (r: string)
    ensures |r| == |s|
    ensures forall i :: 0 <= i < |s| ==> r[i] == LowerChar(s[i])
  {
    if s == [] then [] else [LowerChar(s[0])] + ToLower(s[1..])
  }

  const CustomModelEndpoint: string := "/api/custom-model"
  const AnalyseEndpoint: string := "/api/analyse"

  /** One part of a `MultipartFormDataContent`. */
  datatype FormPart =
    | StringPart(name: string, text: string)
    | FilePart(name: string, fileName: string, bytes: seq<byte>)

  /** An HTTP POST carrying a multipart form. */
  datatype Request = Post(url: string, content: seq<FormPart>)

  /** What the transport hands back: the status code, its `HttpStatusCode` name as C# prints it, and the body text. */
  datatype HttpResponse = HttpResponse(status: int, statusName: string, body: string)

  /** `{success, error}`, the body of a structured failure. */
  datatype FailureResponse = FailureResponse(success: bool, error: string)

  /** `{success, result, error, metadata: {request: {time_ms}}}` from the custom-model endpoint. */
  datatype CustomModelResponse = CustomModelResponse(success: bool, result: string, error: string, timeMs: real)

  datatype ResultBox = ResultBox(x1: real, y1: real, x2: real, y2: real)

  /** One entry of the analyse response's `result` array. */
  datatype PredictionResult = PredictionResult(name: Option<string>, classId: int, confidence: real, box: ResultBox)

  datatype SpeedMetadata = SpeedMetadata(preprocess: real, inference: real, postprocess: real)

  /** The analyse endpoint's success body. */
  datatype AnalyseResponse = AnalyseResponse(success: bool, names: map<int, string>, speed: SpeedMetadata,
                                             timeMs: real, result: seq<PredictionResult>)

  /** The JSON deserialiser, one parser per body schema. */
  datatype JsonDecoder = JsonDecoder(failure: string -> FailureResponse,
                                     upload: string -> CustomModelResponse,
                                     analyse: string -> AnalyseResponse)

  /** `HttpResponseMessage.IsSuccessStatusCode`. */
  predicate IsSuccessStatusCode(status: int)
  {
    200 <= status <= 299
  }

  /** The generic failure message: "Request failed: {StatusCode} {body}". */
  function RequestFailedMessage(response: HttpResponse): string
  {
    "Request failed: " + response.statusName + " " + response.body
  }

  /** Status dispatch of the custom-model upload: 400 and 422 are structured failures. */
  function UploadOutcome(response: HttpResponse, json: JsonDecoder): (r: Result<CustomModelResponse, string>)
    ensures r.Success? <==> IsSuccessStatusCode(response.status)
    ensures r.Success? ==> r.value == json.upload(response.body)
    ensures response.status in {400, 422} ==> r == Failure(json.failure(response.body).error)
    ensures r.Failure? && response.status !in {400, 422} ==> r.error == RequestFailedMessage(response)
  {
    if response.status == 400 then Failure(json.failure(response.body).error)
    else if response.status == 422 then Failure(json.failure(response.body).error)
    else if !IsSuccessStatusCode(response.status) then Failure(RequestFailedMessage(response))
    else Success(json.upload(response.body))
  }

  /** Status dispatch of the analyse call: only 400 is a structured failure. */
  function AnalyseOutcome(response: HttpResponse, json: JsonDecoder): (r: Result<AnalyseResponse, string>)
    ensures r.Success? <==> IsSuccessStatusCode(response.status)
    ensures r.Success? ==> r.value == json.analyse(response.body)
    ensures response.status == 400 ==> r == Failure(json.failure(response.body).error)
    ensures r.Failure? && response.status != 400 ==> r.error == RequestFailedMessage(response)
  {
    if response.status == 400 then Failure(json.failure(response.body).error)
    else if !IsSuccessStatusCode(response.status) then Failure(RequestFailedMessage(response))
    else Success(json.analyse(response.body))
  }

  /**
   * The two endpoints fail on exactly the same statuses and with the same message, except
   * for 422, which the upload reads as a structured failure and the analyse call does not.
   */
  lemma DispatchDiffersOnlyAt422(response: HttpResponse, json: JsonDecoder)
    ensures UploadOutcome(response, json).Failure? <==> AnalyseOutcome(response, json).Failure?
    ensures response.status != 422 && UploadOutcome(response, json).Failure? ==>
              UploadOutcome(response, json).error == AnalyseOutcome(response, json).error
    ensures response.status == 422 ==>
              UploadOutcome(response, json) == Failure(json.failure(response.body).error) &&
              AnalyseOutcome(response, json) == Failure(RequestFailedMessage(response))
  {
  }

  /** The `model` field of an analyse request. */
  function ModelField(yoloModel: YOLOModel, useCustomModel: bool): string
  {
    if useCustomModel then "custom" else ToLower(ModelName(yoloModel))
  }

  /** The field values the server is expected to understand. */
  datatype ModelChoice = Custom | BuiltIn(model: YOLOModel)

  /** How the server reads the `model` field back. */
  function ParseModelField(s: string): Option<ModelChoice>
  {
    if s == "custom" then Some(Custom)
    else if s == "yolo11n" then Some(BuiltIn(YOLO11N))
    else if s == "yolo11s" then Some(BuiltIn(YOLO11S))
    else if s == "yolo11m" then Some(BuiltIn(YOLO11M))
    else if s == "yolo11l" then Some(BuiltIn(YOLO11L))
    else None
  }

  /** How the server reads the `format` field back. */
  function ParseFormatField(s: string): Option<YOLOFormat>
  {
    if s == "ncnn" then Some(NCNN)
    else if s == "onnx" then Some(ONNX)
    else if s == "pytorch" then Some(PYTORCH)
    else None
  }

  /** A string whose letters lower-case one by one to `t` lower-cases to `t`. */
  lemma LowerIs(s: string, t: string)
    requires |s| == |t| && forall i :: 0 <= i < |s| ==> LowerChar(s[i]) == t[i]
    ensures ToLower(s) == t
  {
  }

  /** Lower-cased enum names are exactly the server's vocabulary: every choice is read back as sent. */
  lemma ModelFieldRoundTrip(yoloModel: YOLOModel, useCustomModel: bool)
    ensures ParseModelField(ModelField(yoloModel, useCustomModel))
            == Some(if useCustomModel then Custom else BuiltIn(yoloModel))
  {
    LowerModelNames();
  }

  lemma FormatFieldRoundTrip(yoloFormat: YOLOFormat)
    ensures ParseFormatField(ToLower(FormatName(yoloFormat))) == Some(yoloFormat)
  {
    LowerFormatNames();
  }

  lemma LowerModelNames()
    ensures ToLower("YOLO11N") == "yolo11n" && ToLower("YOLO11S") == "yolo11s"
    ensures ToLower("YOLO11M") == "yolo11m" && ToLower("YOLO11L") == "yolo11l"
  {
    LowerIs("YOLO11N", "yolo11n");
    LowerIs("YOLO11S", "yolo11s");
    LowerIs("YOLO11M", "yolo11m");
    LowerIs("YOLO11L", "yolo11l");
  }

  lemma LowerFormatNames()
    ensures ToLower("NCNN") == "ncnn" && ToLower("ONNX") == "onnx" && ToLower("PYTORCH") == "pytorch"
  {
    LowerIs("NCNN", "ncnn");
    LowerIs("ONNX", "onnx");
    LowerIs("PYTORCH", "pytorch");
  }

  /**
   * The upload request: a plain-HTTP address on the configured host with the custom-model
   * endpoint, and the model bytes, unchanged, as the single file field `model`, named `model.pt`.
   */
  function UploadRequest(baseAddress: string, customModel: seq<byte>): (r: Request)
    ensures |r.url| > 7 + |baseAddress| && r.url[..7] == "http://" && r.url[7..7 + |baseAddress|] == baseAddress
    ensures r.url[7 + |baseAddress|..] == CustomModelEndpoint
    ensures |r.content| == 1 && r.content[0].FilePart? && r.content[0].name == "model"
    ensures r.content[0].fileName == "model.pt" && r.content[0].bytes == customModel
  {
    Post("http://" + baseAddress + CustomModelEndpoint, [FilePart("model", "model.pt", customModel)])
  }

  /**
   * The analyse request, to the analyse endpoint of the configured host: the lower-cased
   * format, the model choice and the image (`image.jpg`), in that order. The server reads back exactly the format and the model the client chose, and the
   * image bytes unchanged.
   */
  function AnalyseRequest(baseAddress: string, imageData: seq<byte>, yoloModel: YOLOModel, yoloFormat: YOLOFormat,
                          useCustomModel: bool): (r: Request)
    ensures |r.url| > 7 + |baseAddress| && r.url[..7] == "http://" && r.url[7..7 + |baseAddress|] == baseAddress
    ensures |r.content| == 3 && r.content[0].StringPart? && r.content[1].StringPart? && r.content[2].FilePart?
    ensures r.content[0].name == "format" && ParseFormatField(r.content[0].text) == Some(yoloFormat)
    ensures r.content[1].name == "model" &&
            ParseModelField(r.content[1].text) == Some(if useCustomModel then Custom else BuiltIn(yoloModel))
    ensures r.url[7 + |baseAddress|..] == AnalyseEndpoint
    ensures r.content[2].name == "image" && r.content[2].fileName == "image.jpg" && r.content[2].bytes == imageData
  {
    FormatFieldRoundTrip(yoloFormat);
    ModelFieldRoundTrip(yoloModel, useCustomModel);
    Post("http://" + baseAddress + AnalyseEndpoint,
         [StringPart("format", ToLower(FormatName(yoloFormat))),
          StringPart("model", ModelField(yoloModel, useCustomModel)),
          FilePart("image", "image.jpg", imageData)])
  }

  /**
   * The request-building half of `RemoteYOLOClient`. `BaseAddress` is a public, settable
   * property, so the client is an object with one mutable field.
   */
  class RemoteYOLOClient {
    var baseAddress: string

    constructor (baseAddress: string)
      ensures this.baseAddress == baseAddress
    {
      this.baseAddress := baseAddress;
    }

    /** The `BaseAddress` setter (used by the address input field). */
    method SetBaseAddress(address: string)
      modifies this
      ensures baseAddress == address
    {
      baseAddress := address;
    }

    /**
     * `UploadCustomModel` and `UploadCustomModelAsync`: posts the model bytes as the single
     * form field `model`, file name `model.pt`, then dispatches on the status.
     */
    method UploadCustomModel(customModel: seq<byte>, send: Request -> HttpResponse, json: JsonDecoder)
      returns (request: Request, outcome: Result<CustomModelResponse, string>)
      ensures request == UploadRequest(baseAddress, customModel)
      ensures outcome == UploadOutcome(send(request), json)
    {
      var content: seq<FormPart> := [];
      content := content + [FilePart("model", "model.pt", customModel)];
      request := Post("http://" + baseAddress + CustomModelEndpoint, content);
      var response := send(request);
      outcome := UploadOutcome(response, json);
    }

    /**
     * `Analyse` and `AnalyseAsync`: posts the lower-cased format, the model choice and the
     * image bytes (file name `image.jpg`), then dispatches on the status.
     */
    method Analyse(imageData: seq<byte>, yoloModel: YOLOModel, yoloFormat: YOLOFormat, useCustomModel: bool,
                   send: Request -> HttpResponse, json: JsonDecoder)
      returns (request: Request, outcome: Result<AnalyseResponse, string>)
      ensures request == AnalyseRequest(baseAddress, imageData, yoloModel, yoloFormat, useCustomModel)
      ensures outcome == AnalyseOutcome(send(request), json)
    {
      var content: seq<FormPart> := [];
      content := content + [StringPart("format", ToLower(FormatName(yoloFormat)))];
      var modelPart := if useCustomModel then StringPart("model", "custom")
                       else StringPart("model", ToLower(ModelName(yoloModel)));
      content := content + [modelPart];
      content := content + [FilePart("image", "image.jpg", imageData)];
      request := Post("http://" + baseAddress + AnalyseEndpoint, content);
      var response := send(request);
      outcome := AnalyseOutcome(response, json);
    }
  }
}
