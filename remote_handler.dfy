/**
 * `RemoteYOLOHandler`: one image at a time goes to the remote server. `Update` starts an
 * analysis when idle, does nothing while one is pending, and publishes the stored response
 * in the frame after it arrives. The analysis continuation and the upload continuation are
 * explicit events; the HTTP transport and the JSON parser are parameters.
 */
module RemoteScheduling {
  import opened Wrappers
  import opened DetectedObjects
  import opened RemoteProtocol
  import opened PostProcessor

  /** What one `Update` call sees. `referenceCameraPresent` false makes `CopyFrom` throw. */
  datatype RemoteFrame = RemoteFrame(cameraPresent: bool, texture: Option<Texture>,
                                     referenceCameraPresent: bool, subscriberThrows: bool)

  /**
   * The handler's flags and response, the analyses started and not yet completed
   * (`inFlight`), the textures sent, and the published and displayed lists.
   */
  datatype RemoteState = RemoteState(
    inferencePending: bool, inferenceDone: bool, response: Option<AnalyseResponse>,
    inputTexture: Option<Texture>, inFlight: nat, sent: seq<Texture>,
    published: seq<seq<DetectedObject>>, displayed: seq<seq<DetectedObject>>)

  /** Pending and done are never both set, and done always has a response to publish. */
  predicate RemoteValid(s: RemoteState)
  {
    !(s.inferencePending && s.inferenceDone) && (s.inferenceDone ==> s.response.Some?)
  }

  /**
   * The state after one `Update` with confidence threshold `threshold`. It keeps the stored
   * response, leaves the handler not done, starts at most one analysis (sending the frame's
   * texture), and publishes at most one list: the kept predictions of the stored response.
   */
  function RemoteUpdateSpec(s: RemoteState, frame: RemoteFrame, threshold: real, displayPresent: bool)
    : (r: RemoteState)
    requires RemoteValid(s)
    ensures r.response == s.response && !r.inferenceDone
    ensures r.inFlight == s.inFlight || r.inFlight == s.inFlight + 1
    ensures r.inFlight == s.inFlight ==> r.sent == s.sent
    ensures r.inFlight == s.inFlight + 1 ==> frame.texture.Some? && r.sent == s.sent + [frame.texture.value]
    ensures r.published == s.published ||
            (s.response.Some? && r.published == s.published + [RemoteKept(s.response.value.result, threshold)])
  {
    if s.inferencePending then s
    else if !s.inferenceDone then
      if !frame.cameraPresent then s
      else if frame.texture.None? then s.(inputTexture := None)
      else
        var started := s.(inputTexture := frame.texture, inFlight := s.inFlight + 1,
                          sent := s.sent + [frame.texture.value]);
        if frame.referenceCameraPresent then started.(inferencePending := true)
        else started.(inferencePending := false, inferenceDone := false)
    else
      var objects := RemoteKept(s.response.value.result, threshold);
      var published := s.(inferencePending := false, inferenceDone := false,
                          published := s.published + [objects]);
      if frame.subscriberThrows || !displayPresent then published
      else published.(displayed := s.displayed + [objects])
  }

  /**
   * The analysis continuation: a response marks the analysis done, an exception clears both
   * flags. Either way one analysis stops being in flight, the handler is no longer pending,
   * and nothing is sent or published.
   */
  function AnalyseCompletedSpec(s: RemoteState, outcome: Result<AnalyseResponse, string>): (r: RemoteState)
    requires s.inFlight > 0
    ensures r.inFlight == s.inFlight - 1 && !r.inferencePending
    ensures r.sent == s.sent && r.published == s.published && r.displayed == s.displayed
  {
    var s := s.(inFlight := s.inFlight - 1);
    match outcome
    case Success(r) => s.(response := Some(r), inferenceDone := true, inferencePending := false)
    case Failure(_) => s.(inferenceDone := false, inferencePending := false)
  }

  lemma RemoteUpdateKeepsValid(s: RemoteState, frame: RemoteFrame, threshold: real, displayPresent: bool)
    requires RemoteValid(s)
    ensures RemoteValid(RemoteUpdateSpec(s, frame, threshold, displayPresent))
  {
  }

  lemma AnalyseCompletedKeepsValid(s: RemoteState, outcome: Result<AnalyseResponse, string>)
    requires RemoteValid(s) && s.inFlight > 0
    ensures RemoteValid(AnalyseCompletedSpec(s, outcome))
  {
  }

  /** Nothing happens while an analysis is pending. */
  lemma PendingIsNoOp(s: RemoteState, frame: RemoteFrame, threshold: real, displayPresent: bool)
    requires RemoteValid(s) && s.inferencePending
    ensures RemoteUpdateSpec(s, frame, threshold, displayPresent) == s
  {
  }

  /** `n` consecutive `Update`s through the same frame, with no analysis completing between them. */
  function RemoteAfterCalls(s: RemoteState, frame: RemoteFrame, threshold: real, displayPresent: bool, n: nat)
    : RemoteState
    requires RemoteValid(s)
    decreases n
  {
    if n == 0 then s
    else
      RemoteUpdateKeepsValid(s, frame, threshold, displayPresent);
      RemoteAfterCalls(RemoteUpdateSpec(s, frame, threshold, displayPresent), frame, threshold, displayPresent, n - 1)
  }

  /**
   * Only the analysis continuation clears the pending flag: if it never runs (the JPEG
   * encoding before its `try` throws, so the awaitable faults unobserved), the handler stays
   * exactly as it is through any number of `Update`s.
   */
  lemma {:induction false} PendingStaysWithoutCompletion(s: RemoteState, frame: RemoteFrame, threshold: real,
                                                         displayPresent: bool, n: nat)
    requires RemoteValid(s) && s.inferencePending
    ensures RemoteAfterCalls(s, frame, threshold, displayPresent, n) == s
    decreases n
  {
    if n > 0 {
      PendingIsNoOp(s, frame, threshold, displayPresent);
      PendingStaysWithoutCompletion(s, frame, threshold, displayPresent, n - 1);
    }
  }

  /**
   * From idle, an analysis starts exactly when the camera and a texture are there, and it
   * is exactly one; the pending flag is then set unless `CopyFrom` threw.
   */
  lemma IdleStartsOneAnalysis(s: RemoteState, frame: RemoteFrame, threshold: real, displayPresent: bool)
    requires RemoteValid(s) && !s.inferencePending && !s.inferenceDone
    ensures var r := RemoteUpdateSpec(s, frame, threshold, displayPresent);
            (r.inFlight == s.inFlight + 1 <==> frame.cameraPresent && frame.texture.Some?) &&
            (r.inFlight == s.inFlight || r.inFlight == s.inFlight + 1) &&
            (r.inFlight == s.inFlight + 1 ==> r.sent == s.sent + [frame.texture.value] &&
                                              r.inferencePending == frame.referenceCameraPresent) &&
            (r.inFlight == s.inFlight ==> r.sent == s.sent && !r.inferencePending) &&
            !r.inferenceDone && r.published == s.published
  {
  }

  /** From done, one call clears both flags and publishes the kept predictions, in server order. */
  lemma DonePublishesAndReturnsToIdle(s: RemoteState, frame: RemoteFrame, threshold: real, displayPresent: bool)
    requires RemoteValid(s) && s.inferenceDone
    ensures var r := RemoteUpdateSpec(s, frame, threshold, displayPresent);
            !r.inferencePending && !r.inferenceDone && r.inFlight == s.inFlight &&
            r.published == s.published + [RemoteKept(s.response.value.result, threshold)] &&
            (r.displayed == s.displayed <==>
               frame.subscriberThrows || !displayPresent)
  {
  }

  /** A response marks the analysis done and not pending; a failure leaves the handler idle. */
  lemma CompletionSetsFlags(s: RemoteState, outcome: Result<AnalyseResponse, string>)
    requires s.inFlight > 0
    ensures var r := AnalyseCompletedSpec(s, outcome);
            (r.inferenceDone <==> outcome.Success?) && !r.inferencePending &&
            r.inFlight == s.inFlight - 1 && r.published == s.published &&
            (outcome.Success? ==> r.response == Some(outcome.value))
  {
  }

  /**
   * A whole round: an idle handler starts an analysis, the server answers with `response`,
   * and the next `Update` publishes exactly the predictions at or above the threshold.
   */
  lemma RoundPublishesResponse(s: RemoteState, frame: RemoteFrame, response: AnalyseResponse,
                               threshold: real, displayPresent: bool)
    requires RemoteValid(s) && !s.inferencePending && !s.inferenceDone
    requires frame.cameraPresent && frame.texture.Some? && frame.referenceCameraPresent
    ensures var s1 := RemoteUpdateSpec(s, frame, threshold, displayPresent);
            s1.inFlight > 0 && RemoteValid(s1) &&
            var s2 := AnalyseCompletedSpec(s1, Success(response));
            RemoteValid(s2) &&
            RemoteUpdateSpec(s2, frame, threshold, displayPresent).published
              == s.published + [RemoteKept(response.result, threshold)]
  {
  }

  class RemoteYOLOHandler {
    var processorAddress: string
    var yoloFormat: YOLOFormat
    var yoloModel: YOLOModel
    var useCustomModel: bool
    var confidenceThreshold: real
    var displayPresent: bool
    var client: RemoteYOLOClient?

    var inferencePending: bool
    var inferenceDone: bool
    var response: Option<AnalyseResponse>
    var inputTexture: Option<Texture>
    ghost var inFlight: nat
    ghost var sent: seq<Texture>
    ghost var published: seq<seq<DetectedObject>>
    ghost var displayed: seq<seq<DetectedObject>>

    ghost function State(): RemoteState
      reads this
    {
      RemoteState(inferencePending, inferenceDone, response, inputTexture, inFlight, sent, published, displayed)
    }

    ghost predicate Valid()
      reads this
    {
      RemoteValid(State())
    }

    /** The serialised settings, before `Start`. */
    constructor (processorAddress: string, yoloFormat: YOLOFormat, yoloModel: YOLOModel, useCustomModel: bool,
                 confidenceThreshold: real, displayPresent: bool)
      ensures Valid() && client == null && !inferencePending && !inferenceDone && inFlight == 0
      ensures this.processorAddress == processorAddress && this.yoloFormat == yoloFormat
      ensures this.yoloModel == yoloModel && this.useCustomModel == useCustomModel
      ensures this.confidenceThreshold == confidenceThreshold && this.displayPresent == displayPresent
      ensures sent == [] && published == [] && displayed == []
    {
      this.processorAddress := processorAddress;
      this.yoloFormat := yoloFormat;
      this.yoloModel := yoloModel;
      this.useCustomModel := useCustomModel;
      this.confidenceThreshold := confidenceThreshold;
      this.displayPresent := displayPresent;
      this.client := null;
      this.inferencePending := false;
      this.inferenceDone := false;
      this.response := None;
      this.inputTexture := None;
      this.inFlight := 0;
      this.sent := [];
      this.published := [];
      this.displayed := [];
    }

    /**
     * `Start`: create the client on the configured address and, when a custom model is
     * requested, upload it synchronously; a missing model asset or a failed upload turns the
     * custom model off. A successful upload's body is not inspected.
     */
    method Start(customModel: Option<seq<byte>>, send: Request -> HttpResponse, json: JsonDecoder)
      returns (upload: Option<Result<CustomModelResponse, string>>)
      requires Valid()
      modifies this
      ensures Valid() && fresh(client) && client.baseAddress == processorAddress
      ensures State() == old(State())
      ensures upload.Some? <==> old(useCustomModel) && customModel.Some?
      ensures upload.Some? ==> upload.value == UploadOutcome(send(UploadRequest(processorAddress, customModel.value)), json)
      ensures useCustomModel == (old(useCustomModel) && upload.Some? && upload.value.Success?)
      ensures unchanged(this`processorAddress, this`yoloFormat, this`yoloModel, this`confidenceThreshold, this`displayPresent)
    {
      client := new RemoteYOLOClient(processorAddress);
      upload := None;
      if useCustomModel {
        if customModel.None? {
          useCustomModel := false;   // `m_customModel.bytes` throws
          return;
        }
        var request, outcome := client.UploadCustomModel(customModel.value, send, json);
        upload := Some(outcome);
        if outcome.Failure? {
          useCustomModel := false;
        }
      }
    }

    /** `UploadCustomModelAsync`, run to completion: the custom model is on exactly when the upload succeeded. */
    method UploadCustomModelAsync(customModel: Option<seq<byte>>, send: Request -> HttpResponse, json: JsonDecoder)
      returns (upload: Option<Result<CustomModelResponse, string>>)
      requires Valid()
      modifies this`useCustomModel
      ensures Valid() && State() == old(State())
      ensures upload.Some? <==> client != null && customModel.Some?
      ensures upload.Some? ==> upload.value == UploadOutcome(send(UploadRequest(client.baseAddress, customModel.value)), json)
      ensures useCustomModel == (upload.Some? && upload.value.Success?)
    {
      upload := None;
      if client == null || customModel.None? {
        useCustomModel := false;
        return;
      }
      var request, outcome := client.UploadCustomModel(customModel.value, send, json);
      upload := Some(outcome);
      useCustomModel := outcome.Success?;
    }

    /** `Update`: start an analysis from idle, or publish the finished one. */
    method Update(frame: RemoteFrame)
      requires Valid()
      modifies this`inputTexture, this`inFlight, this`sent, this`inferencePending, this`inferenceDone,
               this`published, this`displayed
      ensures Valid() && State() == RemoteUpdateSpec(old(State()), frame, confidenceThreshold, displayPresent)
    {
      RemoteUpdateKeepsValid(State(), frame, confidenceThreshold, displayPresent);
      if inferencePending { return; }
      if !inferenceDone {
        if !frame.cameraPresent { return; }
        inputTexture := frame.texture;
        if inputTexture.None? { return; }
        inFlight := inFlight + 1;              // `AnalyseImage` runs on until its first await
        sent := sent + [inputTexture.value];
        inferencePending := true;
        if !frame.referenceCameraPresent {     // `CopyFrom` throws: the catch clears both flags
          inferencePending := false;
          inferenceDone := false;
        }
      } else {
        inferencePending := false;
        inferenceDone := false;
        var detectedObjects := RemoteYOLOPostprocess(response.value, confidenceThreshold);
        published := published + [detectedObjects];
        if frame.subscriberThrows { return; }
        if displayPresent {
          displayed := displayed + [detectedObjects];
        }
      }
    }

    /**
     * The rest of `AnalyseImage`: send the encoded image with the current model settings;
     * a response marks the analysis done, an exception (a failed request or a missing
     * client) clears both flags.
     */
    method OnAnalyseImageResumed(imageData: seq<byte>, send: Request -> HttpResponse, json: JsonDecoder)
      returns (outcome: Result<AnalyseResponse, string>)
      requires Valid() && inFlight > 0
      modifies this`response, this`inferenceDone, this`inferencePending, this`inFlight
      ensures Valid() && State() == AnalyseCompletedSpec(old(State()), outcome)
      ensures client == null ==> outcome.Failure?
      ensures client != null ==>
                outcome == AnalyseOutcome(send(AnalyseRequest(client.baseAddress, imageData, yoloModel, yoloFormat,
                                                              useCustomModel)), json)
    {
      if client == null {
        outcome := Failure("Object reference not set to an instance of an object.");
      } else {
        var request;
        request, outcome := client.Analyse(imageData, yoloModel, yoloFormat, useCustomModel, send, json);
      }
      AnalyseCompletedKeepsValid(State(), outcome);
      Finish(outcome);
    }

    /** The `try`/`catch` around the request: store the response and set the flags. */
    method Finish(outcome: Result<AnalyseResponse, string>)
      requires inFlight > 0
      modifies this`response, this`inferenceDone, this`inferencePending, this`inFlight
      ensures State() == AnalyseCompletedSpec(old(State()), outcome)
    {
      inFlight := inFlight - 1;
      match outcome
      case Success(r) =>
        response := Some(r);
        inferenceDone := true;
        inferencePending := false;
      case Failure(_) =>
        inferenceDone := false;
        inferencePending := false;
    }
  }
}
