/**
 * `YOLOHandler`: the on-device inference loop. Each frame `Update` either starts a pass on a
 * fresh camera texture or advances the running pass by at most `layersPerFrame` layers; when
 * the layer iterator is exhausted it asks for an asynchronous readback, whose completion
 * decodes and publishes the detections. The GPU iterator is a count of layers still to run;
 * the readback completion is an explicit event.
 */
module LocalScheduling {
  import opened Wrappers
  import opened DetectedObjects
  import opened PostProcessor
  import opened Arithmetic

  /** What `PeekOutput() as Tensor<float>` gives when the iterator is exhausted. */
  datatype Output = FloatOutput | NonFloatOutput | PeekThrows

  /** How the readback's continuation runs: `GetResult` throws, or it yields the columns. */
  datatype Readback = ReadbackFailed | ReadbackSucceeded(columns: seq<Column>, subscriberThrows: bool)

  /**
   * How the set-up of a new pass ends: normally, with `RunWithLayerControl` throwing before
   * the pass is marked pending, or with `CopyFrom(ReferenceCamera)` throwing after it is
   * (no reference camera).
   */
  datatype Setup = SetupSucceeds | RunThrows | CopyFromThrows

  /**
   * What one `Update` call sees: the camera component, its texture, how a new pass's set-up
   * ends, the new pass's layer count, and the output.
   */
  datatype Frame = Frame(cameraPresent: bool, texture: Option<Texture>, setup: Setup, passLayers: nat, output: Output)

  /**
   * The handler's mutable state. `remaining` is the layer iterator's state, `passes` counts
   * the iterators created, `awaitingReadback` whether a completion callback is registered,
   * and the counters and logs record disposals, published lists and lists sent to display.
   */
  datatype HandlerState = HandlerState(
    classesLoaded: bool, handlerReady: bool, layersPerFrame: nat,
    inferencePending: bool, readingBack: bool, remaining: nat, passes: nat,
    inputTexture: Option<Texture>, resultHeld: bool, awaitingReadback: bool,
    resultDisposals: nat, disposeTensorsCalls: nat,
    published: seq<seq<DetectedObject>>, displayed: seq<seq<DetectedObject>>)

  /** The outer `catch`: dispose the result if any, drop it, dispose the tensors, clear the pending flag. */
  function Fail(s: HandlerState): (r: HandlerState)
    ensures !r.inferencePending && !r.resultHeld && r.readingBack == s.readingBack
    ensures r.disposeTensorsCalls == s.disposeTensorsCalls + 1
  {
    s.(resultDisposals := s.resultDisposals + (if s.resultHeld then 1 else 0), resultHeld := false,
       disposeTensorsCalls := s.disposeTensorsCalls + 1, inferencePending := false)
  }

  /** Iterator exhausted: raise `readingBack`, peek the output and, for a float tensor, register the completion. */
  function StartReadback(s: HandlerState, output: Output): HandlerState
  {
    var s' := s.(readingBack := true);
    match output
    case FloatOutput => s'.(resultHeld := true, awaitingReadback := true)
    case NonFloatOutput => s'.(resultHeld := false)
    case PeekThrows => Fail(s')
  }

  /** The stepping loop of a pending pass: at most one budget of layers, or the readback. */
  function Step(s: HandlerState, output: Output): HandlerState
  {
    var k := s.layersPerFrame;
    if k == 0 then
      if s.remaining > 0 then Fail(s.(remaining := s.remaining - 1))   // `++it % 0` throws
      else StartReadback(s, output)
    else if s.remaining >= k then s.(remaining := s.remaining - k)
    else StartReadback(s.(remaining := 0), output)
  }

  predicate Guarded(s: HandlerState, frame: Frame)
  {
    !s.classesLoaded || !s.handlerReady || !frame.cameraPresent || s.readingBack
  }

  /** The pass just set up: a fresh iterator over the frame's texture, marked pending. */
  function Started(s: HandlerState, frame: Frame): HandlerState
  {
    s.(inputTexture := frame.texture, remaining := frame.passLayers, inferencePending := true, passes := s.passes + 1)
  }

  /**
   * The state after one `Update`. It never publishes, registers a completion only
   * together with raising `readingBack` on a held result of a pending pass, never changes
   * the settings, and creates at most one iterator.
   */
  function UpdateSpec(s: HandlerState, frame: Frame): (r: HandlerState)
    ensures r.published == s.published && r.displayed == s.displayed
    ensures r.classesLoaded == s.classesLoaded && r.handlerReady == s.handlerReady
    ensures r.layersPerFrame == s.layersPerFrame
    ensures s.passes <= r.passes <= s.passes + 1
    ensures !s.awaitingReadback && r.awaitingReadback ==> r.inferencePending && r.readingBack && r.resultHeld
  {
    if Guarded(s, frame) then s
    else if !s.inferencePending then
      if frame.texture.None? then s.(inputTexture := None)
      else
        match frame.setup
        case RunThrows => Fail(s.(inputTexture := frame.texture))
        case CopyFromThrows => Fail(Started(s, frame))
        case SetupSucceeds => Step(Started(s, frame), frame.output)
    else Step(s, frame.output)
  }

  /**
   * The readback completion. `objects` is what decoding the columns returned. The
   * completion is consumed, no iterator is created, the pass is no longer pending, and at
   * most one list is published and displayed.
   */
  function CompleteSpec(s: HandlerState, readback: Readback, objects: seq<DetectedObject>, displayPresent: bool)
    : (r: HandlerState)
    ensures !r.awaitingReadback && !r.inferencePending && !r.resultHeld && r.passes == s.passes
    ensures r.published == s.published || r.published == s.published + [objects]
    ensures r.displayed == s.displayed || r.displayed == s.displayed + [objects]
  {
    var s := s.(awaitingReadback := false);
    match readback
    case ReadbackFailed =>
      Fail(s)
    case ReadbackSucceeded(_, subscriberThrows) =>
      var done := s.(readingBack := false, resultDisposals := s.resultDisposals + 1, resultHeld := false,
                     disposeTensorsCalls := s.disposeTensorsCalls + 1, inferencePending := false,
                     published := s.published + [objects]);
      if subscriberThrows then Fail(done)
      else if displayPresent then done.(displayed := s.displayed + [objects])
      else done
  }

  /** What the handler keeps true between calls: a registered completion belongs to a pending pass with its frame. */
  predicate HandlerValid(s: HandlerState)
  {
    (s.awaitingReadback ==> s.readingBack && s.inferencePending && s.resultHeld &&
                            s.classesLoaded && s.handlerReady) &&
    (s.inferencePending ==> s.inputTexture.Some?)
  }

  lemma UpdateKeepsValid(s: HandlerState, frame: Frame)
    requires HandlerValid(s)
    ensures HandlerValid(UpdateSpec(s, frame))
  {
  }

  lemma CompleteKeepsValid(s: HandlerState, readback: Readback, objects: seq<DetectedObject>, displayPresent: bool)
    ensures HandlerValid(CompleteSpec(s, readback, objects, displayPresent))
  {
  }

  // ---- Properties of one call --------------------------------------------------------------

  /** Nothing happens without classes, handler or camera, or while reading back. */
  lemma GuardsAreNoOps(s: HandlerState, frame: Frame)
    requires !s.classesLoaded || !s.handlerReady || !frame.cameraPresent || s.readingBack
    ensures UpdateSpec(s, frame) == s
  {
  }

  /**
   * Single flight: a new iterator is created exactly when the guards pass, no pass is
   * pending, a texture is available and `RunWithLayerControl` returns; a missing texture
   * changes nothing but the stored (now null) texture.
   */
  lemma NewPassOnlyFromIdle(s: HandlerState, frame: Frame)
    ensures var r := UpdateSpec(s, frame);
            r.passes == s.passes + (if !Guarded(s, frame) && !s.inferencePending && frame.texture.Some? &&
                                       !frame.setup.RunThrows? then 1 else 0)
    ensures !Guarded(s, frame) && !s.inferencePending && frame.texture.None? ==>
              UpdateSpec(s, frame) == s.(inputTexture := None)
    ensures s.inferencePending ==> UpdateSpec(s, frame).remaining <= s.remaining
  {
  }

  /** With a positive budget, one call runs at most `layersPerFrame` layers of the pass it steps. */
  lemma AtMostBudgetPerCall(s: HandlerState, frame: Frame)
    requires s.layersPerFrame >= 1 && !Guarded(s, frame) && (s.inferencePending || frame.texture.Some?)
    requires !s.inferencePending ==> !frame.setup.RunThrows?
    ensures var start := if s.inferencePending then s.remaining else frame.passLayers;
            var r := UpdateSpec(s, frame);
            r.remaining <= start && start - r.remaining <= s.layersPerFrame
  {
  }

  /** A pass that takes `n` calls to exhaust: the count of full budgets before the readback. */
  function Pauses(remaining: nat, k: nat): nat
    requires k >= 1
    decreases remaining
  {
    if remaining >= k then 1 + Pauses(remaining - k, k) else 0
  }

  lemma {:induction false} PausesIsQuotient(remaining: nat, k: nat)
    requires k >= 1
    ensures Pauses(remaining, k) == remaining / k
    decreases remaining
  {
    if remaining >= k {
      PausesIsQuotient(remaining - k, k);
      assert (remaining - k) / k == remaining / k - 1 by {
        DivMinusDivisor(remaining, k);
      }
    }
  }

  /** `n` consecutive `Update`s through the same frame. */
  function AfterCalls(s: HandlerState, frame: Frame, n: nat): HandlerState
    decreases n
  {
    if n == 0 then s else AfterCalls(UpdateSpec(s, frame), frame, n - 1)
  }

  /**
   * A pending pass with `remaining` layers and budget k ≥ 1 pauses for ⌊remaining/k⌋ calls
   * (never reading back), and reads back on the next.
   */
  lemma {:induction false} PendingPassReadsBackOnTime(s: HandlerState, frame: Frame)
    requires s.layersPerFrame >= 1 && s.classesLoaded && s.handlerReady && frame.cameraPresent
    requires s.inferencePending && !s.readingBack
    ensures forall j :: 0 <= j <= s.remaining / s.layersPerFrame ==> !AfterCalls(s, frame, j).readingBack
    ensures AfterCalls(s, frame, s.remaining / s.layersPerFrame + 1).readingBack
    decreases s.remaining
  {
    PausesIsQuotient(s.remaining, s.layersPerFrame);
    var k := s.layersPerFrame;
    if s.remaining >= k {
      var next := UpdateSpec(s, frame);
      assert next == s.(remaining := s.remaining - k);
      PendingPassReadsBackOnTime(next, frame);
      PausesIsQuotient(next.remaining, k);
      forall j | 0 <= j <= s.remaining / k
        ensures !AfterCalls(s, frame, j).readingBack
      {
        if j > 0 { assert AfterCalls(s, frame, j) == AfterCalls(next, frame, j - 1); }
      }
      assert AfterCalls(s, frame, s.remaining / k + 1) == AfterCalls(next, frame, next.remaining / k + 1);
    } else {
      assert s.remaining / k == 0;
      assert AfterCalls(s, frame, 1) == UpdateSpec(s, frame);
    }
  }

  /**
   * The call that starts a pass also steps it when the set-up succeeds: from idle it
   * behaves like the pending pass it creates.
   */
  lemma StartingCallSteps(s: HandlerState, frame: Frame)
    requires !Guarded(s, frame) && !s.inferencePending && frame.texture.Some? && frame.setup.SetupSucceeds?
    ensures var started := s.(inputTexture := frame.texture, remaining := frame.passLayers,
                              inferencePending := true, passes := s.passes + 1);
            UpdateSpec(s, frame) == UpdateSpec(started, frame)
  {
    var started := Started(s, frame);
    assert !Guarded(started, frame) && started.inferencePending;
    assert UpdateSpec(started, frame) == Step(started, frame.output);
  }

  /**
   * A set-up that throws runs the outer `catch` in the same call, before any layer: the
   * pass is dropped (not pending, tensors disposed, nothing read back), and the next frame
   * starts afresh. Only the `CopyFrom` failure has created an iterator.
   */
  lemma FailedSetupDropsPass(s: HandlerState, frame: Frame)
    requires HandlerValid(s)
    requires !Guarded(s, frame) && !s.inferencePending && frame.texture.Some? && !frame.setup.SetupSucceeds?
    ensures var r := UpdateSpec(s, frame);
            !r.inferencePending && !r.readingBack && !r.awaitingReadback &&
            r.inputTexture == frame.texture &&
            r.disposeTensorsCalls == s.disposeTensorsCalls + 1 &&
            r.passes == s.passes + (if frame.setup.CopyFromThrows? then 1 else 0) &&
            (frame.setup.CopyFromThrows? ==> r.remaining == frame.passLayers)
  {
  }

  /**
   * Stuck: once `readingBack` is set with no completion registered (a non-float output, a
   * throwing peek, or a failed `GetResult`), every later `Update` is a no-op.
   */
  lemma {:induction false} StuckAfterLostReadback(s: HandlerState, frame: Frame, n: nat)
    requires s.readingBack
    ensures AfterCalls(s, frame, n) == s
  {
    if n > 0 {
      StuckAfterLostReadback(UpdateSpec(s, frame), frame, n - 1);
    }
  }

  /** A failed `GetResult` clears pending and disposes, but leaves `readingBack` set with nothing registered. */
  lemma FailedReadbackLeavesReadingBack(s: HandlerState, objects: seq<DetectedObject>, displayPresent: bool)
    requires s.readingBack
    ensures var r := CompleteSpec(s, ReadbackFailed, objects, displayPresent);
            r.readingBack && !r.awaitingReadback && !r.inferencePending &&
            r.disposeTensorsCalls == s.disposeTensorsCalls + 1 && r.published == s.published
  {
  }

  /**
   * A successful completion clears `readingBack` and `inferencePending`, disposes the clone
   * once and the tensors once (twice if a subscriber throws), and publishes the list once.
   */
  lemma SuccessfulReadbackPublishes(s: HandlerState, columns: seq<Column>, subscriberThrows: bool,
                                    objects: seq<DetectedObject>, displayPresent: bool)
    ensures var r := CompleteSpec(s, ReadbackSucceeded(columns, subscriberThrows), objects, displayPresent);
            !r.readingBack && !r.inferencePending && !r.awaitingReadback && !r.resultHeld &&
            r.resultDisposals == s.resultDisposals + 1 &&
            r.disposeTensorsCalls == s.disposeTensorsCalls + (if subscriberThrows then 2 else 1) &&
            r.published == s.published + [objects] &&
            r.displayed == (if displayPresent && !subscriberThrows then s.displayed + [objects] else s.displayed)
  {
  }

  // ---- The component ------------------------------------------------------------------------

  class YOLOHandler {
    var classes: Option<map<int, string>>
    var handlerReady: bool
    var inputSize: int
    var layersPerFrame: nat
    var confidenceThreshold: real
    var displayPresent: bool

    var inferencePending: bool
    var readingBack: bool
    var remaining: nat
    ghost var passes: nat
    var inputTexture: Option<Texture>
    var resultHeld: bool
    var awaitingReadback: bool
    ghost var resultDisposals: nat
    ghost var disposeTensorsCalls: nat
    ghost var published: seq<seq<DetectedObject>>
    ghost var displayed: seq<seq<DetectedObject>>

    ghost function State(): HandlerState
      reads this
    {
      HandlerState(classes.Some?, handlerReady, layersPerFrame, inferencePending, readingBack, remaining, passes,
                   inputTexture, resultHeld, awaitingReadback, resultDisposals, disposeTensorsCalls,
                   published, displayed)
    }

    ghost predicate Valid()
      reads this
    {
      HandlerValid(State()) && (handlerReady ==> inputSize > 0)
    }

    /** The serialised settings, before `Start`. */
    constructor (layersPerFrame: nat, confidenceThreshold: real, displayPresent: bool)
      ensures Valid() && classes == Some(map[]) && !handlerReady && !inferencePending && !readingBack
      ensures this.layersPerFrame == layersPerFrame && this.confidenceThreshold == confidenceThreshold
      ensures this.displayPresent == displayPresent
      ensures passes == 0 && published == [] && displayed == [] && disposeTensorsCalls == 0
    {
      this.classes := Some(map[]);
      this.handlerReady := false;
      this.inputSize := 640;
      this.layersPerFrame := layersPerFrame;
      this.confidenceThreshold := confidenceThreshold;
      this.displayPresent := displayPresent;
      this.inferencePending := false;
      this.readingBack := false;
      this.remaining := 0;
      this.passes := 0;
      this.inputTexture := None;
      this.resultHeld := false;
      this.awaitingReadback := false;
      this.resultDisposals := 0;
      this.disposeTensorsCalls := 0;
      this.published := [];
      this.displayed := [];
    }

    /**
     * `Start`: load the class table (`None` when the JSON's "class" entry is null), then
     * build the model; `modelReady` says whether a model was built (customised, or loaded as
     * is when customisation is off): a failed customisation throws before the handler exists. A budget of 0 becomes 1. The engine runs `Start` once, before the
     * first `Update`, so no pass is pending.
     */
    method Start(classTable: Option<map<int, string>>, modelReady: bool, modelInputSize: int)
      requires Valid() && !inferencePending && modelInputSize > 0
      modifies this
      ensures Valid() && classes == classTable && handlerReady == (old(handlerReady) || modelReady)
      ensures modelReady ==> inputSize == modelInputSize && layersPerFrame == Max1(old(layersPerFrame))
      ensures !modelReady ==> inputSize == old(inputSize) && layersPerFrame == old(layersPerFrame)
      ensures State() == old(State()).(classesLoaded := classTable.Some?, handlerReady := handlerReady,
                                       layersPerFrame := layersPerFrame)
    {
      classes := classTable;
      if !modelReady { return; }
      handlerReady := true;
      inputSize := modelInputSize;
      if layersPerFrame <= 0 { layersPerFrame := 1; }
    }

    /** The public `_layersPerFrame` field, which may be set to any value, 0 included. */
    method SetLayersPerFrame(value: nat)
      requires Valid()
      modifies this
      ensures Valid() && State() == old(State()).(layersPerFrame := value)
    {
      layersPerFrame := value;
    }

    /** The outer `catch` block (lines of `Update` after the `try`). */
    method HandleFailure()
      modifies this`remaining, this`readingBack, this`resultHeld, this`awaitingReadback, this`resultDisposals,
               this`disposeTensorsCalls, this`inferencePending
      ensures State() == Fail(old(State()))
    {
      if resultHeld { resultDisposals := resultDisposals + 1; }
      resultHeld := false;
      disposeTensorsCalls := disposeTensorsCalls + 1;
      inferencePending := false;
    }

    /** `Update`: the guards, the pass start, and the budgeted stepping loop. */
    method Update(frame: Frame)
      requires Valid()
      modifies this`inputTexture, this`remaining, this`passes, this`inferencePending, this`readingBack,
               this`resultHeld, this`awaitingReadback, this`resultDisposals, this`disposeTensorsCalls
      ensures Valid() && State() == UpdateSpec(old(State()), frame)
    {
      ghost var s0 := State();
      UpdateKeepsValid(s0, frame);
      if classes.None? || !handlerReady || !frame.cameraPresent || readingBack { return; }
      if !inferencePending {
        inputTexture := frame.texture;
        if inputTexture.None? { return; }
        if frame.setup.RunThrows? {
          HandleFailure();
          return;
        }
        BeginPass(frame.passLayers);
        if frame.setup.CopyFromThrows? {
          HandleFailure();
          return;
        }
      }
      assert UpdateSpec(s0, frame) == Step(State(), frame.output);
      StepPass(frame.output);
    }

    /** A fresh layer iterator over the stored texture, and the pass marked pending. */
    method BeginPass(passLayers: nat)
      modifies this`remaining, this`passes, this`inferencePending
      ensures State() == old(State()).(remaining := passLayers, inferencePending := true, passes := old(passes) + 1)
    {
      remaining := passLayers;
      passes := passes + 1;
      inferencePending := true;
    }

    /** The stepping loop: `MoveNext` until the budget is spent or the iterator is exhausted. */
    method StepPass(output: Output)
      modifies this`remaining, this`readingBack, this`resultHeld, this`awaitingReadback, this`resultDisposals,
               this`disposeTensorsCalls, this`inferencePending
      ensures State() == Step(old(State()), output)
    {
      var layers, stopped := RunLayers(remaining, layersPerFrame);
      remaining := layers;
      if layersPerFrame == 0 && stopped {
        HandleFailure();
      } else if !stopped {
        BeginReadback(output);
      }
    }

    /** The exhausted iterator: raise `readingBack`, peek the output and register the continuation. */
    method BeginReadback(output: Output)
      modifies this`remaining, this`readingBack, this`resultHeld, this`awaitingReadback, this`resultDisposals,
               this`disposeTensorsCalls, this`inferencePending
      ensures State() == StartReadback(old(State()), output)
    {
      readingBack := true;
      match output
      case FloatOutput =>
        resultHeld := true;
        awaitingReadback := true;
      case NonFloatOutput =>
        resultHeld := false;
      case PeekThrows =>
        HandleFailure();
    }

    /** The readback continuation registered by `Update`. */
    method OnReadbackCompleted(readback: Readback) returns (detectedObjects: seq<DetectedObject>)
      requires Valid() && awaitingReadback
      modifies this`remaining, this`readingBack, this`resultHeld, this`awaitingReadback, this`resultDisposals,
               this`disposeTensorsCalls, this`inferencePending, this`published, this`displayed
      ensures Valid() && State() == CompleteSpec(old(State()), readback, detectedObjects, displayPresent)
      ensures readback.ReadbackSucceeded? ==>
                SortedByConfidence(detectedObjects) &&
                multiset(detectedObjects) ==
                multiset(Kept(readback.columns, old(inputTexture).value.width as real / inputSize as real,
                              old(inputTexture).value.height as real / inputSize as real,
                              old(classes).value, confidenceThreshold))
    {
      ghost var s0 := State();
      awaitingReadback := false;
      detectedObjects := [];
      match readback
      case ReadbackFailed =>
        HandleFailure();
      case ReadbackSucceeded(columns, subscriberThrows) =>
        detectedObjects := Decode(columns);
        if subscriberThrows {
          HandleFailure();
        } else if displayPresent {
          displayed := displayed + [detectedObjects];
        }
      CompleteKeepsValid(s0, readback, detectedObjects, displayPresent);
    }

    /** The `try` block of the continuation up to the event: decode, dispose, clear the flags, publish. */
    method Decode(columns: seq<Column>) returns (detectedObjects: seq<DetectedObject>)
      requires inputTexture.Some? && inputSize > 0 && classes.Some?
      modifies this`readingBack, this`resultDisposals, this`resultHeld, this`disposeTensorsCalls,
               this`inferencePending, this`published
      ensures State() == old(State()).(readingBack := false, resultDisposals := old(resultDisposals) + 1,
                                       resultHeld := false, disposeTensorsCalls := old(disposeTensorsCalls) + 1,
                                       inferencePending := false, published := old(published) + [detectedObjects])
      ensures SortedByConfidence(detectedObjects)
      ensures multiset(detectedObjects) ==
              multiset(Kept(columns, inputTexture.value.width as real / inputSize as real,
                            inputTexture.value.height as real / inputSize as real, classes.value, confidenceThreshold))
    {
      detectedObjects := PostProcess(columns, inputTexture.value, inputSize, classes.value, confidenceThreshold);
      readingBack := false;
      resultDisposals := resultDisposals + 1;
      resultHeld := false;
      disposeTensorsCalls := disposeTensorsCalls + 1;
      inferencePending := false;
      published := published + [detectedObjects];
    }
  }

  /**
   * The `MoveNext` loop on an iterator with `layers` layers left and budget k: it stops
   * after k layers (after the first one when k is 0, where `++it % 0` throws), or when the
   * iterator is exhausted first.
   */
  method RunLayers(layers: nat, k: nat) returns (left: nat, stopped: bool)
    ensures k == 0 ==> if layers > 0 then stopped && left == layers - 1 else !stopped && left == 0
    ensures k >= 1 ==> if layers >= k then stopped && left == layers - k else !stopped && left == 0
  {
    var it := 0;
    left := layers;
    stopped := false;
    while left > 0 && !stopped
      invariant it + left == layers
      invariant k >= 1 ==> if stopped then it == k else it < k
      invariant k == 0 ==> it <= 1 && (stopped <==> it == 1)
      decreases left
    {
      left := left - 1;
      it := it + 1;
      stopped := k == 0 || it % k == 0;
      if k >= 1 { ModOfCounter(it, k); }
    }
  }

  function Max1(n: nat): nat
  {
    if n == 0 then 1 else n
  }
}
