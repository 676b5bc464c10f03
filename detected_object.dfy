/** The immutable detection record every decoder produces and the anchoring engine consumes. */
module DetectedObjects {
  import opened Wrappers
  import opened Geometry

  /** Unity's `Rect`: an origin and a size; `min` is the origin and `max` the origin plus the size. */
  datatype Rect = Rect(x: real, y: real, width: real, height: real) {
    function Min(): Vec2 { Vec2(x, y) }
    function Max(): Vec2 { Vec2(x + width, y + height) }
    function Center(): Vec2 { Vec2(x + width / 2.0, y + height / 2.0) }
  }

  /**
   * One detection. Its properties have private setters and are written only by the
   * constructor, so a datatype value (which never changes) models it exactly.
   * `cocoName == None` is the source's `null` name.
   */
  datatype DetectedObject = DetectedObject(boundingBox: Rect, cocoClass: int, cocoName: Option<string>, confidence: real)

  /**
   * The constructor: class, name and confidence are stored as given; the box's size is the
   * given size cast to `int`, and its origin is the truncated centre minus half of the
   * UNtruncated size.
   */
  function NewDetectedObject(centreX: real, centreY: real, width: real, height: real,
                             cocoClass: int, cocoName: Option<string>, confidence: real): (d: DetectedObject)
    ensures d.cocoClass == cocoClass && d.cocoName == cocoName && d.confidence == confidence
    ensures d.boundingBox.width == Trunc(width) as real && d.boundingBox.height == Trunc(height) as real
    ensures d.boundingBox.x + width / 2.0 == Trunc(centreX) as real
    ensures d.boundingBox.y + height / 2.0 == Trunc(centreY) as real
  {
    DetectedObject(Rect(Trunc(centreX) as real - width / 2.0, Trunc(centreY) as real - height / 2.0,
                        Trunc(width) as real, Trunc(height) as real),
                   cocoClass, cocoName, confidence)
  }

  /** When the centre and size are whole numbers, the box is centred exactly on the given centre. */
  lemma CentreExactForWholeNumbers(cx: int, cy: int, w: int, h: int, c: int, name: Option<string>, conf: real)
    ensures NewDetectedObject(cx as real, cy as real, w as real, h as real, c, name, conf).boundingBox.Center()
            == Vec2(cx as real, cy as real)
  {
    TruncOfInt(cx); TruncOfInt(cy); TruncOfInt(w); TruncOfInt(h);
  }

  /** In general the box centre is less than one and a half pixels from the given centre on each axis. */
  lemma CentreError(cx: real, cy: real, w: real, h: real, c: int, name: Option<string>, conf: real)
    ensures var centre := NewDetectedObject(cx, cy, w, h, c, name, conf).boundingBox.Center();
            -1.5 < centre.x - cx < 1.5 && -1.5 < centre.y - cy < 1.5
  {
    TruncError(cx); TruncError(cy); TruncError(w); TruncError(h);
  }

  /** A non-negative size shrinks by less than one pixel and never grows. */
  lemma SizeError(cx: real, cy: real, w: real, h: real, c: int, name: Option<string>, conf: real)
    requires w >= 0.0 && h >= 0.0
    ensures var box := NewDetectedObject(cx, cy, w, h, c, name, conf).boundingBox;
            w - 1.0 < box.width <= w && h - 1.0 < box.height <= h
  {
  }
}
