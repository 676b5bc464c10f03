/**
 * `YOLOCustomizer`: the customisation parameters, the customisation call with its static
 * settings, and the classification head it grafts onto a YOLO model's 1×84×N output.
 * Loading, graph compilation, quantisation and saving are foreign calls; only whether each
 * of them throws is an input.
 */
module Customizer {
  import opened Geometry
  import Wrappers
  import opened PostProcessor
  import opened RemoteProtocol

  /** The quantisation level a caller asks for. */
  datatype YOLOQuantizationType = None | Float16 | Uint8

  /** The inference engine's weight quantisation types. */
  datatype QuantizationType = Float16Weights | Uint8Weights

  datatype CustomizationParameters = CustomizationParameters(
    addClassificationHead: bool,
    quantizeModel: bool,
    quantizationType: QuantizationType,
    addNMS: bool,
    iouThreshold: real,
    scoreThreshold: real)

  /**
   * The `YOLOCustomizationParameters` constructor. `None` switches quantisation off and leaves
   * the type at its initial value, Float16; the other two switch it on with the matching type.
   */
  function NewCustomizationParameters(addClassificationHead: bool, yoloQuantizationType: YOLOQuantizationType,
                                      addNMS: bool, iouThreshold: real, scoreThreshold: real)
    : (p: CustomizationParameters)
    ensures p.addClassificationHead == addClassificationHead && p.addNMS == addNMS
    ensures p.iouThreshold == iouThreshold && p.scoreThreshold == scoreThreshold
    ensures p.quantizeModel <==> yoloQuantizationType != None
    ensures p.quantizationType == (if yoloQuantizationType == Uint8 then Uint8Weights else Float16Weights)
  {
    match yoloQuantizationType
    case Float16 => CustomizationParameters(addClassificationHead, true, Float16Weights, addNMS, iouThreshold, scoreThreshold)
    case Uint8 => CustomizationParameters(addClassificationHead, true, Uint8Weights, addNMS, iouThreshold, scoreThreshold)
    case None => CustomizationParameters(addClassificationHead, false, Float16Weights, addNMS, iouThreshold, scoreThreshold)
  }

  /** Which quantisation a parameter set asks the customiser to perform. */
  function RequestedQuantization(p: CustomizationParameters): YOLOQuantizationType
  {
    if !p.quantizeModel then None
    else if p.quantizationType == Float16Weights then Float16 else Uint8
  }

  /** The constructor loses nothing: the requested quantisation level is read back unchanged. */
  lemma QuantizationRoundTrip(addHead: bool, q: YOLOQuantizationType, addNMS: bool, iou: real, score: real)
    ensures RequestedQuantization(NewCustomizationParameters(addHead, q, addNMS, iou, score)) == q
  {
  }

  /** The model asset being customised (its content is foreign). */
  datatype ModelAsset = ModelAsset(name: string)

  /** The non-max-suppression stage baked into the head, with the thresholds it was built with. */
  datatype NMSStage = NMSStage(iouThreshold: real, scoreThreshold: real)

  /** What a successful customisation built: which head and which quantisation were applied. */
  datatype YOLOModel = YOLOModel(asset: ModelAsset,
                                 classificationHead: Wrappers.Option<Wrappers.Option<NMSStage>>,
                                 quantization: Wrappers.Option<QuantizationType>)

  /** Whether each foreign call of the customisation would throw, if it is reached. */
  datatype Faults = Faults(load: bool, compileHead: bool, quantize: bool, save: bool, reload: bool)

  /** Customisation succeeds when no foreign call that the parameters make reachable throws. */
  predicate CustomizationSucceeds(parameters: CustomizationParameters, faults: Faults)
  {
    !faults.load && !(parameters.addClassificationHead && faults.compileHead) &&
    !(parameters.quantizeModel && faults.quantize) && !faults.save && !faults.reload
  }

  /** The static fields of `YOLOCustomizer`, modelled as one object. */
  class YOLOCustomizer {
    var addNMS: bool
    var iouThreshold: real
    var scoreThreshold: real

    /** The statics' initial values. */
    constructor ()
      ensures !addNMS && iouThreshold == 0.5 && scoreThreshold == 0.5
    {
      addNMS, iouThreshold, scoreThreshold := false, 0.5, 0.5;
    }

    /**
     * `CustomizeModel`. The statics are written only once the model has loaded; any later
     * throw still leaves them written. The result is true with a model exactly when no
     * reached call throws, and false with a null model otherwise.
     */
    method CustomizeModel(modelAsset: ModelAsset, parameters: CustomizationParameters, faults: Faults)
      returns (ok: bool, yoloModel: Wrappers.Option<YOLOModel>)
      modifies this
      ensures ok <==> yoloModel.Some?
      ensures ok <==> CustomizationSucceeds(parameters, faults)
      ensures faults.load ==> addNMS == old(addNMS) && iouThreshold == old(iouThreshold) &&
                              scoreThreshold == old(scoreThreshold)
      ensures !faults.load ==> addNMS == parameters.addNMS && iouThreshold == parameters.iouThreshold &&
                               scoreThreshold == parameters.scoreThreshold
      ensures ok ==> yoloModel.value.asset == modelAsset
      ensures ok ==> (yoloModel.value.classificationHead.Some? <==> parameters.addClassificationHead)
      ensures ok && parameters.addClassificationHead ==>
                yoloModel.value.classificationHead.value ==
                (if parameters.addNMS then Wrappers.Some(NMSStage(parameters.iouThreshold, parameters.scoreThreshold))
                 else Wrappers.None)
      ensures ok ==> yoloModel.value.quantization ==
                     (if parameters.quantizeModel then Wrappers.Some(parameters.quantizationType) else Wrappers.None)
    {
      if faults.load { return false, Wrappers.None; }
      iouThreshold := parameters.iouThreshold;
      scoreThreshold := parameters.scoreThreshold;
      addNMS := parameters.addNMS;
      var head: Wrappers.Option<Wrappers.Option<NMSStage>> := Wrappers.None;
      if parameters.addClassificationHead {
        if faults.compileHead { return false, Wrappers.None; }
        head := Wrappers.Some(if addNMS then Wrappers.Some(NMSStage(iouThreshold, scoreThreshold)) else Wrappers.None);
      }
      var quantization: Wrappers.Option<QuantizationType> := Wrappers.None;
      if parameters.quantizeModel {
        if faults.quantize { return false, Wrappers.None; }
        quantization := Wrappers.Some(parameters.quantizationType);
      }
      if faults.save || faults.reload { return false, Wrappers.None; }
      return true, Wrappers.Some(YOLOModel(modelAsset, head, quantization));
    }
  }

  // ---- The classification head -------------------------------------------------------

  /** Index of the first maximum (the engine's `ArgMax` without `selectLastIndex`). */
  function ArgMax(s: seq<real>): (k: nat)
    requires |s| > 0
    ensures k < |s|
    ensures forall j :: 0 <= j < |s| ==> s[j] <= s[k]
    ensures forall j :: 0 <= j < k ==> s[j] < s[k]
  {
    if |s| == 1 then 0
    else
      var k' := ArgMax(s[..|s| - 1]);
      assert forall j :: 0 <= j < |s| - 1 ==> s[..|s| - 1][j] == s[j];
      if s[|s| - 1] > s[k'] then |s| - 1 else k'
  }

  /**
   * Rows 4..83 of a raw column: one confidence per class (fewer if the column is shorter).
   * A raw column has the four box rows and at least one class row.
   */
  function ClassRows(raw: seq<real>): (r: seq<real>)
    requires |raw| > 4
    ensures 0 < |r| <= 80
  {
    raw[4..if |raw| < 84 then |raw| else 84]
  }

  /** `ArgMax` and `ReduceMax` over the class rows of every column (both shaped 1×N). */
  function ArgMaxClasses(raw: seq<seq<real>>): (ids: seq<nat>)
    requires forall i :: 0 <= i < |raw| ==> |raw[i]| > 4
    ensures |ids| == |raw|
  {
    seq(|raw|, i requires 0 <= i < |raw| => ArgMax(ClassRows(raw[i])))
  }

  function Confidences(raw: seq<seq<real>>): (scores: seq<real>)
    requires forall i :: 0 <= i < |raw| ==> |raw[i]| > 4
    ensures |scores| == |raw|
  {
    seq(|raw|, i requires 0 <= i < |raw| => ClassRows(raw[i])[ArgMax(ClassRows(raw[i]))])
  }

  /** Rows 0..3 of every column: the centre-form box. */
  function Positions(raw: seq<seq<real>>): (boxes: seq<CentreBox>)
    requires forall i :: 0 <= i < |raw| ==> |raw[i]| > 4
    ensures |boxes| == |raw|
  {
    seq(|raw|, i requires 0 <= i < |raw| => CentreBox(raw[i][0], raw[i][1], raw[i][2], raw[i][3]))
  }

  /** `Functional.Gather` / `IndexSelect` along the column axis. */
  function Gather<T>(values: seq<T>, indices: seq<nat>): (r: seq<T>)
    requires forall j :: 0 <= j < |indices| ==> indices[j] < |values|
    ensures |r| == |indices|
    ensures forall j :: 0 <= j < |indices| ==> r[j] == values[indices[j]]
  {
    seq(|indices|, j requires 0 <= j < |indices| => values[indices[j]])
  }

  /** `Concat` of coordinates, class ids (as floats) and scores along the row axis: a 1×6×N tensor. */
  function Concat(coords: seq<CentreBox>, classIds: seq<nat>, scores: seq<real>): (out: seq<Column>)
    requires |coords| == |classIds| == |scores|
    ensures |out| == |coords|
  {
    seq(|coords|, i requires 0 <= i < |coords| =>
      Column(coords[i].centreX, coords[i].centreY, coords[i].width, coords[i].height,
             classIds[i] as real, scores[i]))
  }

  /**
   * The head's output. Without NMS every column is kept; with NMS, `indices` (chosen by the
   * engine's NMS from the corner boxes and scores) selects columns, and the SAME index list
   * gathers the class ids, the scores and the coordinates. One column per kept index, and
   * each class row holds a whole class index below 80.
   */
  function HeadOutput(raw: seq<seq<real>>, nmsIndices: Wrappers.Option<seq<nat>>): (out: seq<Column>)
    requires forall i :: 0 <= i < |raw| ==> |raw[i]| > 4
    requires nmsIndices.Some? ==> forall j :: 0 <= j < |nmsIndices.value| ==> nmsIndices.value[j] < |raw|
    ensures |out| == if nmsIndices.None? then |raw| else |nmsIndices.value|
    ensures forall j :: 0 <= j < |out| ==> 0.0 <= out[j].classValue < 80.0 && out[j].classValue.Floor as real == out[j].classValue
  {
    match nmsIndices
    case None => Concat(Positions(raw), ArgMaxClasses(raw), Confidences(raw))
    case Some(indices) =>
      Concat(Gather(Positions(raw), indices), Gather(ArgMaxClasses(raw), indices), Gather(Confidences(raw), indices))
  }

  /**
   * The rows the head writes are the rows the local decoder reads: row 4 holds the most
   * confident class (read back as that integer), row 5 its confidence, rows 0..3 the box.
   */
  lemma HeadFeedsDecoder(raw: seq<seq<real>>, i: nat)
    requires forall k :: 0 <= k < |raw| ==> |raw[k]| > 4
    requires i < |raw|
    ensures var c := HeadOutput(raw, Wrappers.None)[i];
            var classes := ClassRows(raw[i]);
            var id := Trunc(c.classValue);
            0 <= id < |classes| &&
            c.confidence == classes[id] &&
            (forall j :: 0 <= j < |classes| ==> classes[j] <= c.confidence) &&
            c.centreX == raw[i][0] && c.centreY == raw[i][1] && c.width == raw[i][2] && c.height == raw[i][3]
  {
    var k := ArgMax(ClassRows(raw[i]));
    TruncOfInt(k);
  }

  /** NMS keeps columns whole: output column j is exactly the un-suppressed column `indices[j]`. */
  lemma NMSKeepsColumnsAligned(raw: seq<seq<real>>, indices: seq<nat>)
    requires forall i :: 0 <= i < |raw| ==> |raw[i]| > 4
    requires forall j :: 0 <= j < |indices| ==> indices[j] < |raw|
    ensures |HeadOutput(raw, Wrappers.Some(indices))| == |indices|
    ensures forall j :: 0 <= j < |indices| ==>
              HeadOutput(raw, Wrappers.Some(indices))[j] == HeadOutput(raw, Wrappers.None)[indices[j]]
  {
  }

  /** The 4×4 centre-to-corner matrix, row-major as in the source. */
  const CentersToCorners: seq<seq<real>> := [
    [ 1.0,  0.0, 1.0, 0.0],
    [ 0.0,  1.0, 0.0, 1.0],
    [-0.5,  0.0, 0.5, 0.0],
    [ 0.0, -0.5, 0.0, 0.5]]

  /** A row vector times a 4×4 matrix (`MatMul` of one transposed column with the matrix). */
  function RowTimes(v: seq<real>, m: seq<seq<real>>): (r: seq<real>)
    requires |v| == 4 && |m| == 4 && forall k :: 0 <= k < 4 ==> |m[k]| == 4
    ensures |r| == 4
  {
    seq(4, j requires 0 <= j < 4 => v[0] * m[0][j] + v[1] * m[1][j] + v[2] * m[2][j] + v[3] * m[3][j])
  }

  /** The matrix maps [cx, cy, w, h] to the corners [cx − w/2, cy − h/2, cx + w/2, cy + h/2]. */
  lemma CornersOfCentreBox(cx: real, cy: real, w: real, h: real)
    ensures RowTimes([cx, cy, w, h], CentersToCorners) == [cx - w / 2.0, cy - h / 2.0, cx + w / 2.0, cy + h / 2.0]
  {
    var r := RowTimes([cx, cy, w, h], CentersToCorners);
    assert r[0] == cx - w / 2.0;
    assert r[1] == cy - h / 2.0;
    assert r[2] == cx + w / 2.0;
    assert r[3] == cy + h / 2.0;
  }

  /** The remote decoder's corner-to-centre conversion undoes the matrix. */
  lemma CornersRoundTrip(cx: real, cy: real, w: real, h: real)
    ensures var c := RowTimes([cx, cy, w, h], CentersToCorners);
            CornersToCentre(ResultBox(c[0], c[1], c[2], c[3])) == CentreBox(cx, cy, w, h)
  {
    CornersOfCentreBox(cx, cy, w, h);
  }

  /** And the matrix undoes the conversion: corners survive the trip through centre form. */
  lemma CentreRoundTrip(box: ResultBox)
    ensures var c := CornersToCentre(box);
            RowTimes([c.centreX, c.centreY, c.width, c.height], CentersToCorners) == [box.x1, box.y1, box.x2, box.y2]
  {
    var c := CornersToCentre(box);
    CornersOfCentreBox(c.centreX, c.centreY, c.width, c.height);
  }
}
