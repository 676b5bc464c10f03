/**
 * `YOLOPostProcessor`: decoding of the local model's output tensor and of the remote
 * server's predictions into detections.
 */
module PostProcessor {
  import opened Wrappers
  import opened Geometry
  import opened DetectedObjects
  import opened RemoteProtocol

  /**
   * One column `i` of the 1×6×N output tensor: `result[0, r, i]` for rows r = 0..5 (box
   * centre, box size, class index as a float, confidence). Rows past 5 are never read.
   */
  datatype Column = Column(centreX: real, centreY: real, width: real, height: real,
                           classValue: real, confidence: real)

  /** The pixel size of the analysed frame. */
  datatype Texture = Texture(width: int, height: int)

  /** `classes.GetValueOrDefault(id, null)`. */
  function ClassName(classes: map<int, string>, id: int): (name: Option<string>)
    ensures name.Some? <==> id in classes
    ensures name.Some? ==> name.value == classes[id]
  {
    if id in classes then Some(classes[id]) else None
  }

  /** The detection a kept column yields: x-quantities scaled by `widthScale`, y-quantities by `heightScale`. */
  function ColumnObject(c: Column, widthScale: real, heightScale: real, classes: map<int, string>): (d: DetectedObject)
    ensures d.confidence == c.confidence
    ensures d.cocoClass == Trunc(c.classValue) && d.cocoName == ClassName(classes, Trunc(c.classValue))
    ensures d.boundingBox.width == Trunc(c.width * widthScale) as real
    ensures d.boundingBox.height == Trunc(c.height * heightScale) as real
    ensures d.boundingBox.x + c.width * widthScale / 2.0 == Trunc(c.centreX * widthScale) as real
    ensures d.boundingBox.y + c.height * heightScale / 2.0 == Trunc(c.centreY * heightScale) as real
  {
    var cocoClass := Trunc(c.classValue);
    NewDetectedObject(c.centreX * widthScale, c.centreY * heightScale,
                      c.width * widthScale, c.height * heightScale,
                      cocoClass, ClassName(classes, cocoClass), c.confidence)
  }

  /**
   * The detections of the columns that pass the threshold, in column order (before the sort):
   * at most one per column, none from an empty tensor, and none below the threshold.
   */
  function Kept(columns: seq<Column>, widthScale: real, heightScale: real,
                classes: map<int, string>, threshold: real): (r: seq<DetectedObject>)
    ensures |r| <= |columns|
    ensures forall d :: d in r ==> d.confidence >= threshold
  {
    if columns == [] then []
    else
      var last := columns[|columns| - 1];
      var rest := Kept(columns[..|columns| - 1], widthScale, heightScale, classes, threshold);
      if last.confidence < threshold then rest
      else rest + [ColumnObject(last, widthScale, heightScale, classes)]
  }

  /**
   * A detection is decoded exactly when some column with confidence at least the threshold
   * (equality included) yields it.
   */
  lemma {:induction false} KeptMembership(columns: seq<Column>, ws: real, hs: real, classes: map<int, string>,
                                          t: real, d: DetectedObject)
    ensures d in Kept(columns, ws, hs, classes, t) <==>
            exists i :: 0 <= i < |columns| && columns[i].confidence >= t && d == ColumnObject(columns[i], ws, hs, classes)
  {
    if columns != [] {
      var init := columns[..|columns| - 1];
      KeptMembership(init, ws, hs, classes, t, d);
      if exists i :: 0 <= i < |columns| && columns[i].confidence >= t && d == ColumnObject(columns[i], ws, hs, classes) {
        var i :| 0 <= i < |columns| && columns[i].confidence >= t && d == ColumnObject(columns[i], ws, hs, classes);
        if i < |init| { assert init[i] == columns[i]; }
      }
      if exists i :: 0 <= i < |init| && init[i].confidence >= t && d == ColumnObject(init[i], ws, hs, classes) {
        var i :| 0 <= i < |init| && init[i].confidence >= t && d == ColumnObject(init[i], ws, hs, classes);
        assert columns[i] == init[i];
      }
    }
  }

  /** Sorted non-increasing by confidence. */
  predicate SortedByConfidence(s: seq<DetectedObject>)
  {
    forall i, j :: 0 <= i < j < |s| ==> s[i].confidence >= s[j].confidence
  }

  /** Inserts `d` before the first element whose confidence it reaches. */
  function Insert(d: DetectedObject, s: seq<DetectedObject>): (r: seq<DetectedObject>)
    ensures multiset(r) == multiset(s) + multiset{d}
    ensures r[0] == d || (s != [] && r[0] == s[0])
  {
    if s == [] then [d]
    else if d.confidence >= s[0].confidence then [d] + s
    else
      assert s == [s[0]] + s[1..];
      [s[0]] + Insert(d, s[1..])
  }

  lemma {:induction false} InsertSorted(d: DetectedObject, s: seq<DetectedObject>)
    requires SortedByConfidence(s)
    ensures SortedByConfidence(Insert(d, s))
  {
    if s != [] && d.confidence < s[0].confidence {
      var tail := Insert(d, s[1..]);
      InsertSorted(d, s[1..]);
      assert tail[0].confidence <= s[0].confidence;
      var r := [s[0]] + tail;
      forall i, j | 0 <= i < j < |r| ensures r[i].confidence >= r[j].confidence {
        if i == 0 && j > 1 { assert tail[0].confidence >= tail[j - 1].confidence; }
      }
    }
  }

  /**
   * `List.Sort` with the comparison `y.Confidence.CompareTo(x.Confidence)`: the result is a
   * permutation of the input, sorted non-increasing by confidence. The library's sort is not
   * stable, so nothing is said about the order of equal confidences.
   */
  function SortByConfidence(s: seq<DetectedObject>): (r: seq<DetectedObject>)
    ensures SortedByConfidence(r)
    ensures multiset(r) == multiset(s)
  {
    if s == [] then []
    else
      assert s == [s[0]] + s[1..];
      var sortedTail := SortByConfidence(s[1..]);
      InsertSorted(s[0], sortedTail);
      Insert(s[0], sortedTail)
  }

  /** `PostProcess`: the kept columns' detections, sorted by confidence, highest first. */
  method PostProcess(result: seq<Column>, inputTexture: Texture, inputSize: int,
                     classes: map<int, string>, confidenceThreshold: real)
    returns (objects: seq<DetectedObject>)
    requires inputSize > 0
    ensures SortedByConfidence(objects)
    ensures multiset(objects) == multiset(Kept(result, inputTexture.width as real / inputSize as real,
                                                inputTexture.height as real / inputSize as real,
                                                classes, confidenceThreshold))
    ensures |objects| <= |result|
    ensures forall d :: d in objects ==> d.confidence >= confidenceThreshold
  {
    objects := [];
    var widthScale := inputTexture.width as real / inputSize as real;
    var heightScale := inputTexture.height as real / inputSize as real;
    for i := 0 to |result|
      invariant objects == Kept(result[..i], widthScale, heightScale, classes, confidenceThreshold)
    {
      assert result[..i + 1][..i] == result[..i];
      assert result[..i + 1][i] == result[i];
      var confidence := result[i].confidence;
      if confidence < confidenceThreshold {
        assert objects == Kept(result[..i + 1], widthScale, heightScale, classes, confidenceThreshold);
        continue;
      }
      var obj := ColumnObject(result[i], widthScale, heightScale, classes);
      objects := objects + [obj];
    }
    assert result[..|result|] == result;
    SortKeepsElements(objects);
    objects := SortByConfidence(objects);
  }

  /** Sorting changes neither the length nor the set of elements. */
  lemma SortKeepsElements(s: seq<DetectedObject>)
    ensures |SortByConfidence(s)| == |s|
    ensures forall d :: d in SortByConfidence(s) <==> d in s
  {
    var r := SortByConfidence(s);
    assert |r| == |multiset(r)| == |multiset(s)| == |s|;
    forall d ensures d in r <==> d in s {
      assert d in r <==> d in multiset(r);
      assert d in s <==> d in multiset(s);
    }
  }

  /** A 1280×960 frame analysed at 640: (320, 320, 100, 100) becomes centre (640, 480), size (200, 150). */
  lemma ScalingExample(classes: map<int, string>)
    ensures var d := ColumnObject(Column(320.0, 320.0, 100.0, 100.0, 0.0, 0.9), 1280.0 / 640.0, 960.0 / 640.0, classes);
            d.boundingBox.Center() == Vec2(640.0, 480.0) &&
            d.boundingBox.width == 200.0 && d.boundingBox.height == 150.0
  {
    CentreExactForWholeNumbers(640, 480, 200, 150, 0, ClassName(classes, 0), 0.9);
    TruncOfInt(0);
  }

  /** A class index missing from the table yields a detection with a null name, not a failure. */
  lemma UnknownClassHasNoName(c: Column, ws: real, hs: real, classes: map<int, string>)
    requires Trunc(c.classValue) !in classes
    ensures ColumnObject(c, ws, hs, classes).cocoName == None
    ensures ColumnObject(c, ws, hs, classes).cocoClass == Trunc(c.classValue)
  {
  }

  /** A box given by its centre and size. */
  datatype CentreBox = CentreBox(centreX: real, centreY: real, width: real, height: real)

  /** The remote decoder's conversion: centre = midpoint of the corners, size = corner deltas. */
  function CornersToCentre(box: ResultBox): (c: CentreBox)
    ensures c.centreX - c.width / 2.0 == box.x1 && c.centreX + c.width / 2.0 == box.x2
    ensures c.centreY - c.height / 2.0 == box.y1 && c.centreY + c.height / 2.0 == box.y2
  {
    CentreBox((box.x1 + box.x2) / 2.0, (box.y1 + box.y2) / 2.0, box.x2 - box.x1, box.y2 - box.y1)
  }

  /** The detection for one server prediction: class id, name and confidence are copied. */
  function PredictionObject(p: PredictionResult): DetectedObject
  {
    var c := CornersToCentre(p.box);
    NewDetectedObject(c.centreX, c.centreY, c.width, c.height, p.classId, p.name, p.confidence)
  }

  /** The predictions that pass the threshold, converted, in server order: at most one per prediction. */
  function RemoteKept(predictions: seq<PredictionResult>, threshold: real): (r: seq<DetectedObject>)
    ensures |r| <= |predictions|
    ensures forall d :: d in r ==> d.confidence >= threshold
  {
    if predictions == [] then []
    else
      var last := predictions[|predictions| - 1];
      var rest := RemoteKept(predictions[..|predictions| - 1], threshold);
      if last.confidence < threshold then rest else rest + [PredictionObject(last)]
  }

  /** No sort: decoding a concatenation is the concatenation of the decodings, so server order is kept. */
  lemma {:induction false} RemoteKeptAppend(a: seq<PredictionResult>, b: seq<PredictionResult>, t: real)
    ensures RemoteKept(a + b, t) == RemoteKept(a, t) + RemoteKept(b, t)
  {
    if b == [] {
      assert a + b == a;
    } else {
      var init := b[..|b| - 1];
      assert (a + b)[..|a + b| - 1] == a + init;
      assert (a + b)[|a + b| - 1] == b[|b| - 1];
      RemoteKeptAppend(a, init, t);
    }
  }

  /** A single prediction is kept exactly when its confidence reaches the threshold. */
  lemma RemoteKeptSingle(p: PredictionResult, t: real)
    ensures RemoteKept([p], t) == if p.confidence >= t then [PredictionObject(p)] else []
  {
    assert [p][..0] == [];
  }

  /** Every remote detection comes from a kept prediction and keeps its class id, name and confidence. */
  lemma {:induction false} RemoteKeptSound(predictions: seq<PredictionResult>, t: real)
    ensures forall d :: d in RemoteKept(predictions, t) ==>
              exists p :: p in predictions && p.confidence >= t && d.cocoClass == p.classId &&
                          d.cocoName == p.name && d.confidence == p.confidence
  {
    if predictions != [] {
      var init := predictions[..|predictions| - 1];
      RemoteKeptSound(init, t);
      forall p | p in init ensures p in predictions { }
    }
  }

  /** `RemoteYOLOPostprocess`: the kept predictions' detections, in the server's order. */
  method RemoteYOLOPostprocess(response: AnalyseResponse, confidenceThreshold: real)
    returns (results: seq<DetectedObject>)
    ensures results == RemoteKept(response.result, confidenceThreshold)
  {
    results := [];
    for i := 0 to |response.result|
      invariant results == RemoteKept(response.result[..i], confidenceThreshold)
    {
      assert response.result[..i + 1][..i] == response.result[..i];
      assert response.result[..i + 1][i] == response.result[i];
      var obj := response.result[i];
      if obj.confidence < confidenceThreshold { continue; }
      var cx := (obj.box.x1 + obj.box.x2) / 2.0;
      var cy := (obj.box.y1 + obj.box.y2) / 2.0;
      var width := obj.box.x2 - obj.box.x1;
      var height := obj.box.y2 - obj.box.y1;
      var detected := NewDetectedObject(cx, cy, width, height, obj.classId, obj.name, obj.confidence);
      assert detected == PredictionObject(obj) by {
        assert CornersToCentre(obj.box) == CentreBox(cx, cy, width, height);
      }
      results := results + [detected];
    }
    assert response.result[..|response.result|] == response.result;
  }
}
