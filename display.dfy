/**
 * `ObjectDisplayManager`: turns each frame's detections into a population of spawned 3D
 * models ("anchors"), grouped by class into slot-indexed maps, under a per-call cap of three
 * per class, a duplicate radius and a global cap. Raycasts, the camera projection and the
 * renderers' bounds are inputs (`Scene`); a spawned model is a value in its slot.
 */
module Display {
  import opened Wrappers
  import opened Geometry
  import opened DetectedObjects

  // ---- Values ---------------------------------------------------------------------------

  /** How the rescale factor is chosen from the width and height ratios. */
  datatype ScaleType = WIDTH | HEIGHT | AVERAGE | MIN | MAX

  /** A model asset from the class-name-to-model table. */
  datatype Prefab = Prefab(id: int, position: Vec3, scale: Vec3)

  /** A model's orientation: a surface normal, the identity, or turned to face the camera (`LookAt`). */
  datatype Rotation = SurfaceNormal(normal: Vec3) | Identity | FacingCamera

  /** A transform's local scale; a NaN factor makes it undefined. */
  datatype Scale = Scale(v: Vec3) | UndefinedScale

  /** One spawned model: its asset, transform and the name `"{CocoName} {id}"` it was given. */
  datatype Anchor = Anchor(prefab: Prefab, position: Vec3, rotation: Rotation, scale: Scale,
                           name: string, nameIndex: int)

  /** `Instantiate`: a fresh copy of the asset. */
  function Instantiate(prefab: Prefab): Anchor
  {
    Anchor(prefab, prefab.position, Identity, Scale(prefab.scale), "", 0)
  }

  /** Where a detection lands in the world (the raycast chain's result) and the normal's confidence. */
  datatype WorldPose = WorldPose(position: Vec3, rotation: Rotation, hitConfidence: real)

  /** A renderer's world-space axis-aligned bounds. */
  datatype Bounds = Bounds(min: Vec3, max: Vec3) {
    function Center(): Vec3 { Vec3((min.x + max.x) / 2.0, (min.y + max.y) / 2.0, (min.z + max.z) / 2.0) }
  }

  /**
   * What the engine supplies for one call: the world pose of a detection, the bounds of a
   * placed model's renderer, the camera's world-to-screen projection, the camera's and the
   * feed's pixel sizes, and whether the depth raycaster is active and enabled.
   */
  datatype Scene = Scene(poseOf: DetectedObject -> WorldPose,
                         boundsOf: Anchor -> Bounds,
                         project: Vec3 -> Vec2,
                         cameraWidth: int, cameraHeight: int,
                         feedWidth: int, feedHeight: int,
                         depthRaycastActive: bool)

  // ---- Screen mapping ------------------------------------------------------------------

  /** `ImageToScreenCoordinates`: centre the feed on the camera, flip y, and apply the 200-pixel correction. */
  function ImageToScreen(scene: Scene, p: Vec2): (q: Vec2)
    ensures ScreenToImage(scene, q) == p
  {
    var xOffset := (scene.cameraWidth - scene.feedWidth) as real / 2.0;
    var yOffset := (scene.cameraHeight - scene.feedHeight) as real / 2.0;
    Vec2(p.x + xOffset, (scene.feedHeight as real - p.y) + yOffset - 200.0)
  }

  /** The reverse mapping, from screen back to feed pixels. */
  function ScreenToImage(scene: Scene, q: Vec2): Vec2
  {
    var xOffset := (scene.cameraWidth - scene.feedWidth) as real / 2.0;
    var yOffset := (scene.cameraHeight - scene.feedHeight) as real / 2.0;
    Vec2(q.x - xOffset, scene.feedHeight as real - (q.y + 200.0 - yOffset))
  }

  /** The screen mapping loses nothing: mapping back recovers the image point. */
  lemma ScreenMappingRoundTrip(scene: Scene, p: Vec2)
    ensures ScreenToImage(scene, ImageToScreen(scene, p)) == p
    ensures ImageToScreen(scene, ScreenToImage(scene, p)) == p
  {
  }

  /** The mapping is a translation with a vertical flip, so a box keeps its on-screen width and height. */
  lemma ScreenMappingKeepsExtents(scene: Scene, box: Rect)
    ensures Abs(ImageToScreen(scene, box.Max()).x - ImageToScreen(scene, box.Min()).x) == Abs(box.width)
    ensures Abs(ImageToScreen(scene, box.Max()).y - ImageToScreen(scene, box.Min()).y) == Abs(box.height)
  {
  }

  // ---- Model bounds ----------------------------------------------------------------------

  /** `GetModel3DBounds`: the eight corners of the renderer's box, in the source's order. */
  function Model3DBounds(b: Bounds): (corners: seq<Vec3>)
    ensures |corners| == 8
  {
    [b.min, b.max,
     Vec3(b.min.x, b.min.y, b.max.z), Vec3(b.min.x, b.max.y, b.min.z), Vec3(b.max.x, b.min.y, b.min.z),
     Vec3(b.min.x, b.max.y, b.max.z), Vec3(b.max.x, b.min.y, b.max.z), Vec3(b.max.x, b.max.y, b.min.z)]
  }

  function Pick(choice: bool, lo: real, hi: real): real { if choice then hi else lo }

  /** The eight points are exactly the box's vertices: every min/max combination, and nothing else. */
  lemma Model3DBoundsAreTheVertices(b: Bounds)
    ensures forall cx: bool, cy: bool, cz: bool ::
              Vec3(Pick(cx, b.min.x, b.max.x), Pick(cy, b.min.y, b.max.y), Pick(cz, b.min.z, b.max.z))
                in Model3DBounds(b)
    ensures forall p :: p in Model3DBounds(b) ==>
              (p.x == b.min.x || p.x == b.max.x) && (p.y == b.min.y || p.y == b.max.y) &&
              (p.z == b.min.z || p.z == b.max.z)
  {
    var corners := Model3DBounds(b);
    forall cx: bool, cy: bool, cz: bool
      ensures Vec3(Pick(cx, b.min.x, b.max.x), Pick(cy, b.min.y, b.max.y), Pick(cz, b.min.z, b.max.z)) in corners
    {
      var v := Vec3(Pick(cx, b.min.x, b.max.x), Pick(cy, b.min.y, b.max.y), Pick(cz, b.min.z, b.max.z));
      if !cx && !cy && !cz { assert v == corners[0]; }
      else if cx && cy && cz { assert v == corners[1]; }
      else if !cx && !cy && cz { assert v == corners[2]; }
      else if !cx && cy && !cz { assert v == corners[3]; }
      else if cx && !cy && !cz { assert v == corners[4]; }
      else if !cx && cy && cz { assert v == corners[5]; }
      else if cx && !cy && cz { assert v == corners[6]; }
      else { assert v == corners[7]; }
    }
  }

  /** The smallest and largest of a non-empty sequence. */
  function MinOf(s: seq<real>): real
    requires |s| > 0
  {
    if |s| == 1 then s[0] else Min(MinOf(s[..|s| - 1]), s[|s| - 1])
  }

  function MaxOf(s: seq<real>): real
    requires |s| > 0
  {
    if |s| == 1 then s[0] else Max(MaxOf(s[..|s| - 1]), s[|s| - 1])
  }

  /** `MinOf` is a lower bound that some element attains. */
  lemma {:induction false} MinOfIsLeast(s: seq<real>)
    requires |s| > 0
    ensures forall i :: 0 <= i < |s| ==> MinOf(s) <= s[i]
    ensures exists i :: 0 <= i < |s| && MinOf(s) == s[i]
  {
    if |s| > 1 {
      var init := s[..|s| - 1];
      MinOfIsLeast(init);
      assert forall i :: 0 <= i < |init| ==> init[i] == s[i];
      var j :| 0 <= j < |init| && MinOf(init) == init[j];
      if MinOf(s) == s[j] {
      } else {
        assert MinOf(s) == s[|s| - 1];
      }
    } else {
      assert MinOf(s) == s[0];
    }
  }

  /** `MaxOf` is an upper bound that some element attains. */
  lemma {:induction false} MaxOfIsGreatest(s: seq<real>)
    requires |s| > 0
    ensures forall i :: 0 <= i < |s| ==> s[i] <= MaxOf(s)
    ensures exists i :: 0 <= i < |s| && MaxOf(s) == s[i]
  {
    if |s| > 1 {
      var init := s[..|s| - 1];
      MaxOfIsGreatest(init);
      assert forall i :: 0 <= i < |init| ==> init[i] == s[i];
      var j :| 0 <= j < |init| && MaxOf(init) == init[j];
      if MaxOf(s) == s[j] {
      } else {
        assert MaxOf(s) == s[|s| - 1];
      }
    } else {
      assert MaxOf(s) == s[0];
    }
  }

  function Xs(points: seq<Vec2>): (xs: seq<real>)
    ensures |xs| == |points| && forall i :: 0 <= i < |points| ==> xs[i] == points[i].x
  {
    seq(|points|, i requires 0 <= i < |points| => points[i].x)
  }

  function Ys(points: seq<Vec2>): (ys: seq<real>)
    ensures |ys| == |points| && forall i :: 0 <= i < |points| ==> ys[i] == points[i].y
  {
    seq(|points|, i requires 0 <= i < |points| => points[i].y)
  }

  /** Taking one more point into account extends each coordinate's minimum and maximum by it. */
  lemma ExtentStep(points: seq<Vec2>, i: int)
    requires 0 <= i < |points|
    ensures var (lo, hi) := Extent(points[..if i == 0 then 1 else i]);
            Extent(points[..i + 1]) == (Vec2(Min(lo.x, points[i].x), Min(lo.y, points[i].y)),
                                        Vec2(Max(hi.x, points[i].x), Max(hi.y, points[i].y)))
  {
    if i > 0 {
      assert Xs(points[..i + 1])[..i] == Xs(points[..i]);
      assert Ys(points[..i + 1])[..i] == Ys(points[..i]);
    }
  }

  /** Every point lies inside the extent. */
  lemma ExtentContains(points: seq<Vec2>)
    requires |points| > 0
    ensures forall i :: 0 <= i < |points| ==>
              Extent(points).0.x <= points[i].x <= Extent(points).1.x &&
              Extent(points).0.y <= points[i].y <= Extent(points).1.y
  {
    MinOfIsLeast(Xs(points));
    MinOfIsLeast(Ys(points));
    MaxOfIsGreatest(Xs(points));
    MaxOfIsGreatest(Ys(points));
  }

  /** The projected 3D bounds of a model. */
  function ScreenPoints(scene: Scene, bounds3D: seq<Vec3>): (points: seq<Vec2>)
    ensures |points| == |bounds3D|
  {
    seq(|bounds3D|, i requires 0 <= i < |bounds3D| => scene.project(bounds3D[i]))
  }

  /** The on-screen bounding rectangle of a set of points, as (min corner, max corner). */
  function Extent(points: seq<Vec2>): (Vec2, Vec2)
    requires |points| > 0
  {
    (Vec2(MinOf(Xs(points)), MinOf(Ys(points))), Vec2(MaxOf(Xs(points)), MaxOf(Ys(points))))
  }

  // ---- Scale factor ------------------------------------------------------------------------

  /** A single-precision quotient of non-negative extents: finite, +infinity (x/0, x > 0) or NaN (0/0). */
  datatype Ratio = Finite(value: real) | Infinite | NaN

  function Divide(a: real, b: real): Ratio
  {
    if b != 0.0 then Finite(a / b) else if a != 0.0 then Infinite else NaN
  }

  function Plus(r: Ratio, s: Ratio): Ratio
  {
    if r.NaN? || s.NaN? then NaN
    else if r.Infinite? || s.Infinite? then Infinite
    else Finite(r.value + s.value)
  }

  function Halve(r: Ratio): Ratio
  {
    if r.Finite? then Finite(r.value / 2.0) else r
  }

  /** `Math.Min` on floats: NaN wins; infinity loses to any finite value. */
  function MinRatio(r: Ratio, s: Ratio): Ratio
  {
    if r.NaN? || s.NaN? then NaN
    else if r.Infinite? then s
    else if s.Infinite? then r
    else Finite(Min(r.value, s.value))
  }

  /** `Math.Max` on floats: NaN wins, then infinity. */
  function MaxRatio(r: Ratio, s: Ratio): Ratio
  {
    if r.NaN? || s.NaN? then NaN
    else if r.Infinite? || s.Infinite? then Infinite
    else Finite(Max(r.value, s.value))
  }

  /** Multiplication by a positive constant. */
  function Times(r: Ratio, k: real): Ratio
    requires k > 0.0
  {
    if r.Finite? then Finite(r.value * k) else r
  }

  const ScaleDampener: real := 0.0

  /**
   * The rescale factor: the ratio the policy picks, times (1 − ScaleDampener), with an
   * infinite result replaced by 1.
   */
  function ScaleFactor(scaleType: ScaleType, newWidth: real, newHeight: real,
                       currentWidth: real, currentHeight: real): (f: Ratio)
    ensures !f.Infinite?
  {
    var w := Divide(newWidth, currentWidth);
    var h := Divide(newHeight, currentHeight);
    var raw := match scaleType
      case WIDTH => w
      case HEIGHT => h
      case AVERAGE => Halve(Plus(w, h))
      case MIN => MinRatio(w, h)
      case MAX => MaxRatio(w, h);
    var damped := Times(raw, 1.0 - ScaleDampener);
    if damped.Infinite? then Finite(1.0) else damped
  }

  /** With both current extents non-zero, the factor is the policy's ratio itself. */
  lemma ScaleFactorWhenVisible(scaleType: ScaleType, nw: real, nh: real, cw: real, ch: real)
    requires cw != 0.0 && ch != 0.0
    ensures ScaleFactor(scaleType, nw, nh, cw, ch) == Finite(match scaleType
              case WIDTH => nw / cw
              case HEIGHT => nh / ch
              case AVERAGE => (nw / cw + nh / ch) / 2.0
              case MIN => Min(nw / cw, nh / ch)
              case MAX => Max(nw / cw, nh / ch))
  {
  }

  /** A model that currently has zero on-screen width is not blown up: the width factor is 1. */
  lemma ZeroWidthClampsToOne(nw: real, nh: real, ch: real)
    requires nw != 0.0
    ensures ScaleFactor(WIDTH, nw, nh, 0.0, ch) == Finite(1.0)
    ensures ch != 0.0 ==> ScaleFactor(MAX, nw, nh, 0.0, ch) == Finite(1.0)
    ensures ch != 0.0 ==> ScaleFactor(AVERAGE, nw, nh, 0.0, ch) == Finite(1.0)
    ensures ch != 0.0 ==> ScaleFactor(MIN, nw, nh, 0.0, ch) == Finite(nh / ch)
  {
  }

  /** `Vector3.Scale(localScale, (f, f, f))`. */
  function ApplyFactor(scale: Scale, f: Ratio): (r: Scale)
    requires !f.Infinite?
    ensures f == Finite(1.0) ==> r == scale
  {
    match scale
    case UndefinedScale => UndefinedScale
    case Scale(v) =>
      if f.NaN? then UndefinedScale
      else Scale(Vec3(v.x * f.value, v.y * f.value, v.z * f.value))
  }

  // ---- Duplicates ----------------------------------------------------------------------------

  /** `Vector3.Distance(bounds.max, bounds.center)`, squared. */
  function SquaredRadius(b: Bounds): real
  {
    SquaredDistance(b.max, b.Center())
  }

  /**
   * Whether a model lies closer to `position` than `threshold` times its bounding radius
   * (both sides squared; a non-positive threshold or radius never matches, since a distance
   * is never below zero).
   */
  predicate TooClose(scene: Scene, threshold: real, position: Vec3, model: Anchor)
  {
    threshold > 0.0 && SquaredRadius(scene.boundsOf(model)) > 0.0 &&
    SquaredDistance(position, model.position) < threshold * threshold * SquaredRadius(scene.boundsOf(model))
  }

  /** `IsDuplicate`: some model of the class is too close; never with no models or a non-positive threshold. */
  predicate IsDuplicate(scene: Scene, threshold: real, position: Vec3, modelList: map<int, Anchor>)
    ensures modelList == map[] ==> !IsDuplicate(scene, threshold, position, modelList)
    ensures threshold <= 0.0 ==> !IsDuplicate(scene, threshold, position, modelList)
  {
    exists id {:trigger TooClose(scene, threshold, position, modelList[id])} ::
      id in modelList && TooClose(scene, threshold, position, modelList[id])
  }

  lemma ProductNonNegative(x: real, y: real)
    requires x >= 0.0 && y >= 0.0
    ensures x * y >= 0.0
  {
  }

  lemma ProductPositive(x: real, y: real)
    requires x > 0.0 && y > 0.0
    ensures x * y > 0.0
  {
  }

  /** Squaring keeps the order of non-negative numbers. */
  lemma SquareKeepsOrder(a: real, b: real)
    requires a >= 0.0 && b >= 0.0
    ensures a < b <==> a * a < b * b
  {
    if a < b {
      ProductNonNegative(a, b - a);
      ProductPositive(b, b - a);
    } else {
      ProductNonNegative(a, a - b);
      ProductNonNegative(b, a - b);
    }
  }

  /**
   * The squared comparison is the source's `distance < threshold × radius`: for the
   * non-negative square roots `distance` and `radius` of the two squared quantities, a model
   * is too close exactly when its distance is below the threshold times its bounding radius.
   */
  lemma TooCloseIsDistanceBelowRadius(scene: Scene, threshold: real, position: Vec3, model: Anchor,
                                      distance: real, radius: real)
    requires distance >= 0.0 && distance * distance == SquaredDistance(position, model.position)
    requires radius >= 0.0 && radius * radius == SquaredRadius(scene.boundsOf(model))
    ensures TooClose(scene, threshold, position, model) <==> distance < threshold * radius
  {
    if threshold <= 0.0 {
      assert threshold * radius <= 0.0;
    } else if radius == 0.0 {
      assert SquaredRadius(scene.boundsOf(model)) == 0.0;
    } else {
      assert radius * radius > 0.0;
      SquareKeepsOrder(distance, threshold * radius);
      assert (threshold * radius) * (threshold * radius) == threshold * threshold * (radius * radius);
    }
  }

  // ---- Placement as a function of the state ---------------------------------------------------

  /** Whether the surface normal is kept rather than turning the model to the camera. */
  predicate UseRaycastNormal(scene: Scene, pose: WorldPose)
  {
    scene.depthRaycastActive && pose.hitConfidence >= 0.5
  }

  /** The settings a manager is configured with. */
  datatype Config = Config(maxModelCount: int, distanceThreshold: real,
                           cocoModels: map<string, Option<Prefab>>,
                           movingObjects: bool, scaleType: ScaleType)

  /** The detection's box measured on screen (`sP3 − sP1`): the mapping keeps its width and height. */
  function ScreenSize(scene: Scene, box: Rect): (size: Vec2)
    ensures size == Vec2(Abs(box.width), Abs(box.height))
  {
    ScreenMappingKeepsExtents(scene, box);
    var sP3 := ImageToScreen(scene, box.Max());
    var sP1 := ImageToScreen(scene, box.Min());
    Vec2(Abs(sP3.x - sP1.x), Abs(sP3.y - sP1.y))
  }

  /** The model's current on-screen width and height (`GetModel2DBounds`). */
  function CurrentSize(scene: Scene, model: Anchor): Vec2
  {
    var extent := Extent(ScreenPoints(scene, Model3DBounds(scene.boundsOf(model))));
    Vec2(Abs(extent.1.x - extent.0.x), Abs(extent.1.y - extent.0.y))
  }

  /**
   * `RescaleObject`: only the scale changes, by the policy's factor between the detection's
   * box size and the model's current on-screen size.
   */
  function Rescaled(scaleType: ScaleType, scene: Scene, obj: DetectedObject, model: Anchor): (r: Anchor)
    ensures r.(scale := model.scale) == model
  {
    var target := ScreenSize(scene, obj.boundingBox);
    var current := CurrentSize(scene, model);
    model.(scale := ApplyFactor(model.scale, ScaleFactor(scaleType, target.x, target.y, current.x, current.y)))
  }

  /** The placed model (`UpdateModel`): moved, oriented, named `"{CocoName} {id}"`, then rescaled. */
  function Updated(scaleType: ScaleType, scene: Scene, obj: DetectedObject, id: int, pose: WorldPose,
                   model: Anchor): Anchor
  {
    var moved := model.(position := pose.position,
                        rotation := if UseRaycastNormal(scene, pose) then pose.rotation else FacingCamera,
                        name := NameOf(obj), nameIndex := id);
    Rescaled(scaleType, scene, obj, moved)
  }

  /** The class name as interpolated into the model's name (a missing name interpolates as empty). */
  function NameOf(obj: DetectedObject): string
  {
    if obj.cocoName.Some? then obj.cocoName.value else ""
  }

  /** How a placed model is moved, named and rescaled; the population logic below is generic in it. */
  type Updater = (DetectedObject, int, WorldPose, Anchor) -> Anchor

  function UpdaterFor(scaleType: ScaleType, scene: Scene): Updater
  {
    (obj: DetectedObject, id: int, pose: WorldPose, model: Anchor) => Updated(scaleType, scene, obj, id, pose, model)
  }

  /**
   * `update` agrees with `Updated` everywhere. Stated pointwise, so that the placement
   * proofs below can name a placed model without unfolding the scale arithmetic.
   */
  ghost predicate Implements(update: Updater, scaleType: ScaleType, scene: Scene)
  {
    forall obj, id, pose, model {:trigger Updated(scaleType, scene, obj, id, pose, model)} ::
      update(obj, id, pose, model) == Updated(scaleType, scene, obj, id, pose, model)
  }

  lemma UpdaterForImplements(scaleType: ScaleType, scene: Scene)
    ensures Implements(UpdaterFor(scaleType, scene), scaleType, scene)
  {
  }

  /** Each class's slots are exactly 0 .. size − 1. */
  ghost predicate Contiguous(modelList: map<int, Anchor>)
  {
    forall k :: k in modelList <==> 0 <= k < |modelList|
  }

  ghost predicate AllContiguous(models: map<int, map<int, Anchor>>)
  {
    forall c :: c in models ==> Contiguous(models[c])
  }

  /** The manager's mutable state: the class → slot → model maps and the model counter. */
  datatype Population = Population(models: map<int, map<int, Anchor>>, count: int)

  function CountOf(counts: map<int, nat>, c: int): nat
  {
    if c in counts then counts[c] else 0
  }

  /** Whether a detection passes the name, per-call cap and model-table checks. */
  predicate Eligible(cfg: Config, counts: map<int, nat>, obj: DetectedObject)
  {
    obj.cocoName.Some? && CountOf(counts, obj.cocoClass) != 3 &&
    obj.cocoName.value in cfg.cocoModels && cfg.cocoModels[obj.cocoName.value].Some?
  }

  /** One iteration of `DisplayModels`' loop: the new population and the new per-call counts. */
  function Place(cfg: Config, scene: Scene, update: Updater, pop: Population, counts: map<int, nat>, obj: DetectedObject)
    : (r: (Population, map<int, nat>))
    requires AllContiguous(pop.models)
    ensures AllContiguous(r.0.models)
  {
    if !Eligible(cfg, counts, obj) then (pop, counts)
    else
      var c := obj.cocoClass;
      var modelList := if c in pop.models then pop.models[c] else map[];
      var models := pop.models[c := modelList];
      var pose := scene.poseOf(obj);
      if IsDuplicate(scene, cfg.distanceThreshold, pose.position, modelList) then (Population(models, pop.count), counts)
      else Settle(cfg, update, obj, pose, Population(models, pop.count), counts)
  }

  /** A non-duplicate eligible detection whose class has an entry: spawn, move in place, or only count. */
  function Settle(cfg: Config, update: Updater, obj: DetectedObject, pose: WorldPose, pop: Population, counts: map<int, nat>)
    : (r: (Population, map<int, nat>))
    requires Eligible(cfg, counts, obj) && obj.cocoClass in pop.models && AllContiguous(pop.models)
    ensures AllContiguous(r.0.models)
  {
    var c := obj.cocoClass;
    var modelList := pop.models[c];
    var n := CountOf(counts, c) + 1;
    var counts' := counts[c := n];
    if (!cfg.movingObjects || n > |modelList|) && pop.count != cfg.maxModelCount then
      var model := update(obj, n, pose, Instantiate(cfg.cocoModels[obj.cocoName.value].value));
      assert |modelList| !in modelList;
      (Population(pop.models[c := modelList[|modelList| := model]], pop.count + 1), counts')
    else if n <= |modelList| && cfg.movingObjects then
      var model := update(obj, n, pose, modelList[n - 1]);
      (Population(pop.models[c := modelList[n - 1 := model]], pop.count), counts')
    else (pop, counts')
  }

  /** The loop over a whole detection list, in order. */
  function PlaceAll(cfg: Config, scene: Scene, update: Updater, pop: Population, counts: map<int, nat>, objects: seq<DetectedObject>)
    : (r: (Population, map<int, nat>))
    requires AllContiguous(pop.models)
    ensures AllContiguous(r.0.models)
  {
    if objects == [] then (pop, counts)
    else
      var prev := PlaceAll(cfg, scene, update, pop, counts, objects[..|objects| - 1]);
      Place(cfg, scene, update, prev.0, prev.1, objects[|objects| - 1])
  }

  // ---- The total model count ------------------------------------------------------------

  /** Every occupied (class, slot) pair; the counter must equal their number. */
  ghost function Slots(models: map<int, map<int, Anchor>>): set<(int, int)>
  {
    set c, k | c in models && k in models[c] :: (c, k)
  }

  /** The manager's invariant: contiguous slots, and the counter is the number of models, within the cap. */
  ghost predicate PopulationValid(pop: Population, maxModelCount: int)
  {
    AllContiguous(pop.models) && pop.count == |Slots(pop.models)| && 0 <= pop.count <= maxModelCount
  }

  /** Adding an empty entry, or replacing a model in an occupied slot, leaves the slots unchanged. */
  lemma SlotsSameKeys(models: map<int, map<int, Anchor>>, c: int, v: map<int, Anchor>)
    requires c in models ==> v.Keys == models[c].Keys
    requires c !in models ==> v == map[]
    ensures Slots(models[c := v]) == Slots(models)
  {
  }

  /** Filling a fresh slot adds exactly one. */
  lemma SlotsAddOne(models: map<int, map<int, Anchor>>, c: int, k: int, a: Anchor)
    requires c in models && k !in models[c]
    ensures Slots(models[c := models[c][k := a]]) == Slots(models) + {(c, k)}
    ensures |Slots(models[c := models[c][k := a]])| == |Slots(models)| + 1
  {
    assert (c, k) !in Slots(models);
  }

  /** Every iteration keeps the invariant. */
  lemma PlaceKeepsInvariant(cfg: Config, scene: Scene, update: Updater, pop: Population, counts: map<int, nat>,
                            obj: DetectedObject)
    requires PopulationValid(pop, cfg.maxModelCount)
    ensures PopulationValid(Place(cfg, scene, update, pop, counts, obj).0, cfg.maxModelCount)
  {
    if Eligible(cfg, counts, obj) {
      var c := obj.cocoClass;
      var modelList := if c in pop.models then pop.models[c] else map[];
      var entered := Population(pop.models[c := modelList], pop.count);
      SlotsSameKeys(pop.models, c, modelList);
      var pose := scene.poseOf(obj);
      if !IsDuplicate(scene, cfg.distanceThreshold, pose.position, modelList) {
        SettleKeepsInvariant(cfg, update, obj, pose, entered, counts);
      }
    }
  }

  lemma SettleKeepsInvariant(cfg: Config, update: Updater, obj: DetectedObject, pose: WorldPose, pop: Population,
                             counts: map<int, nat>)
    requires PopulationValid(pop, cfg.maxModelCount) && Eligible(cfg, counts, obj) && obj.cocoClass in pop.models
    ensures PopulationValid(Settle(cfg, update, obj, pose, pop, counts).0, cfg.maxModelCount)
  {
    var c := obj.cocoClass;
    var modelList := pop.models[c];
    var n := CountOf(counts, c) + 1;
    if (!cfg.movingObjects || n > |modelList|) && pop.count != cfg.maxModelCount {
      var model := update(obj, n, pose, Instantiate(cfg.cocoModels[obj.cocoName.value].value));
      AppendKeepsValid(pop, cfg.maxModelCount, c, model);
    } else if n <= |modelList| && cfg.movingObjects {
      var model := update(obj, n, pose, modelList[n - 1]);
      ReplaceKeepsValid(pop, cfg.maxModelCount, c, n - 1, model);
    }
  }

  /** Filling the next slot of a class below the cap keeps the invariant. */
  lemma AppendKeepsValid(pop: Population, maxModelCount: int, c: int, model: Anchor)
    requires PopulationValid(pop, maxModelCount) && c in pop.models && pop.count != maxModelCount
    ensures var modelList := pop.models[c];
            PopulationValid(Population(pop.models[c := modelList[|modelList| := model]], pop.count + 1), maxModelCount)
  {
    var modelList := pop.models[c];
    ContiguousAppend(modelList, model);
    SlotsAddOne(pop.models, c, |modelList|, model);
    var models := pop.models[c := modelList[|modelList| := model]];
    assert forall d :: d in models ==> models[d] == if d == c then modelList[|modelList| := model] else pop.models[d];
  }

  lemma ContiguousAppend(modelList: map<int, Anchor>, model: Anchor)
    requires Contiguous(modelList)
    ensures |modelList| !in modelList && Contiguous(modelList[|modelList| := model])
  {
    var next := modelList[|modelList| := model];
    assert |modelList| !in modelList;
    assert |next| == |modelList| + 1;
  }

  /** Replacing the model in an occupied slot keeps the invariant. */
  lemma ReplaceKeepsValid(pop: Population, maxModelCount: int, c: int, k: int, model: Anchor)
    requires PopulationValid(pop, maxModelCount) && c in pop.models && k in pop.models[c]
    ensures PopulationValid(Population(pop.models[c := pop.models[c][k := model]], pop.count), maxModelCount)
  {
    SlotsSameKeys(pop.models, c, pop.models[c][k := model]);
  }

  lemma {:induction false} PlaceAllKeepsInvariant(cfg: Config, scene: Scene, update: Updater, pop: Population,
                                                  counts: map<int, nat>, objects: seq<DetectedObject>)
    requires PopulationValid(pop, cfg.maxModelCount)
    ensures PopulationValid(PlaceAll(cfg, scene, update, pop, counts, objects).0, cfg.maxModelCount)
  {
    if objects != [] {
      PlaceAllKeepsInvariant(cfg, scene, update, pop, counts, objects[..|objects| - 1]);
      var prev := PlaceAll(cfg, scene, update, pop, counts, objects[..|objects| - 1]);
      PlaceKeepsInvariant(cfg, scene, update, prev.0, prev.1, objects[|objects| - 1]);
    }
  }

  /** Per call, no class is counted more than three times. */
  lemma {:induction false} AtMostThreePerClass(cfg: Config, scene: Scene, update: Updater, pop: Population, objects: seq<DetectedObject>)
    requires AllContiguous(pop.models)
    ensures forall c :: c in PlaceAll(cfg, scene, update, pop, map[], objects).1 ==>
              1 <= PlaceAll(cfg, scene, update, pop, map[], objects).1[c] <= 3
  {
    if objects != [] {
      AtMostThreePerClass(cfg, scene, update, pop, objects[..|objects| - 1]);
    }
  }

  /** A detection without a name, or whose name has no (or a null) model, changes nothing. */
  lemma UnmappedIsSkipped(cfg: Config, scene: Scene, update: Updater, pop: Population, counts: map<int, nat>, obj: DetectedObject)
    requires AllContiguous(pop.models)
    requires obj.cocoName.None? || obj.cocoName.value !in cfg.cocoModels || cfg.cocoModels[obj.cocoName.value].None?
    ensures Place(cfg, scene, update, pop, counts, obj) == (pop, counts)
  {
  }

  /** A duplicate neither spawns, updates nor counts; since it needs a model to be near, the class already has an entry. */
  lemma DuplicateChangesNoModel(cfg: Config, scene: Scene, update: Updater, pop: Population, counts: map<int, nat>, obj: DetectedObject)
    requires AllContiguous(pop.models) && Eligible(cfg, counts, obj)
    requires var c := obj.cocoClass;
             IsDuplicate(scene, cfg.distanceThreshold, scene.poseOf(obj).position,
                         if c in pop.models then pop.models[c] else map[])
    ensures obj.cocoClass in pop.models
    ensures Place(cfg, scene, update, pop, counts, obj) == (pop, counts)
  {
    assert obj.cocoClass in pop.models;
    assert pop.models[obj.cocoClass := pop.models[obj.cocoClass]] == pop.models;
  }

  /**
   * Spawn: a non-duplicate with (moving mode off or more detections than models) below the
   * cap is placed in a new slot numbered by the class's old size, the counter rises by one,
   * the class's count by one, and nothing else changes.
   */
  lemma SpawnAddsOneModel(cfg: Config, scene: Scene, update: Updater, pop: Population, counts: map<int, nat>, obj: DetectedObject)
    requires AllContiguous(pop.models) && Eligible(cfg, counts, obj)
    requires var c := obj.cocoClass;
             var modelList := if c in pop.models then pop.models[c] else map[];
             !IsDuplicate(scene, cfg.distanceThreshold, scene.poseOf(obj).position, modelList) &&
             (!cfg.movingObjects || CountOf(counts, c) + 1 > |modelList|) && pop.count != cfg.maxModelCount
    ensures var c := obj.cocoClass;
            var modelList := if c in pop.models then pop.models[c] else map[];
            var n := CountOf(counts, c) + 1;
            var model := update(obj, n, scene.poseOf(obj), Instantiate(cfg.cocoModels[obj.cocoName.value].value));
            |modelList| !in modelList &&
            Place(cfg, scene, update, pop, counts, obj) ==
              (Population(pop.models[c := modelList[|modelList| := model]], pop.count + 1), counts[c := n])
  {
    var c := obj.cocoClass;
    var n := CountOf(counts, c) + 1;
    var model := update(obj, n, scene.poseOf(obj), Instantiate(cfg.cocoModels[obj.cocoName.value].value));
    if c in pop.models {
      var modelList := pop.models[c];
      assert |modelList| !in modelList;
      var models := pop.models[c := modelList];
      assert models[c := modelList[|modelList| := model]] == pop.models[c := modelList[|modelList| := model]];
      assert Place(cfg, scene, update, pop, counts, obj) ==
             (Population(models[c := modelList[|modelList| := model]], pop.count + 1), counts[c := n]);
    } else {
      var empty: map<int, Anchor> := map[];
      assert !IsDuplicate(scene, cfg.distanceThreshold, scene.poseOf(obj).position, empty);
      var models := pop.models[c := empty];
      assert models[c := empty[0 := model]] == pop.models[c := empty[0 := model]];
      assert Place(cfg, scene, update, pop, counts, obj) ==
             (Population(models[c := empty[0 := model]], pop.count + 1), counts[c := n]);
    }
  }

  /**
   * Update: in moving mode, a non-duplicate whose running count n does not exceed the
   * class's model count (and that does not spawn) replaces slot n − 1 in place.
   */
  lemma MovingModeUpdatesSlot(cfg: Config, scene: Scene, update: Updater, pop: Population, counts: map<int, nat>, obj: DetectedObject)
    requires AllContiguous(pop.models) && Eligible(cfg, counts, obj) && cfg.movingObjects
    requires var c := obj.cocoClass;
             c in pop.models &&
             !IsDuplicate(scene, cfg.distanceThreshold, scene.poseOf(obj).position, pop.models[c]) &&
             CountOf(counts, c) + 1 <= |pop.models[c]|
    ensures var c := obj.cocoClass;
            var n := CountOf(counts, c) + 1;
            var r := Place(cfg, scene, update, pop, counts, obj);
            r.0.count == pop.count && r.1 == counts[c := n] &&
            r.0.models == pop.models[c := pop.models[c][n - 1 := update(obj, n, scene.poseOf(obj), pop.models[c][n - 1])]]
  {
  }

  /** The counter is unchanged, no class loses its entry or changes its slots, and new entries are empty. */
  predicate KeepsShape(before: Population, after: Population)
  {
    after.count == before.count &&
    before.models.Keys <= after.models.Keys &&
    (forall c :: c in before.models ==> after.models[c].Keys == before.models[c].Keys) &&
    (forall c :: c in after.models && c !in before.models ==> after.models[c] == map[])
  }

  /** At the cap, one detection keeps the shape. */
  lemma CapStopsSpawningStep(cfg: Config, scene: Scene, update: Updater, pop: Population, counts: map<int, nat>,
                             obj: DetectedObject)
    requires AllContiguous(pop.models) && pop.count == cfg.maxModelCount
    ensures KeepsShape(pop, Place(cfg, scene, update, pop, counts, obj).0)
  {
  }

  lemma KeepsShapeTransitive(p: Population, q: Population, r: Population)
    requires KeepsShape(p, q) && KeepsShape(q, r)
    ensures KeepsShape(p, r)
  {
    forall c | c in r.models && c !in p.models
      ensures r.models[c] == map[]
    {
      if c in q.models {
        assert r.models[c].Keys == {};
      }
    }
  }

  /** Once the cap is reached no call spawns: the counter and every class's size stay put. */
  lemma {:induction false} CapStopsSpawning(cfg: Config, scene: Scene, update: Updater, pop: Population, counts: map<int, nat>,
                                            objects: seq<DetectedObject>)
    requires AllContiguous(pop.models) && pop.count == cfg.maxModelCount
    ensures KeepsShape(pop, PlaceAll(cfg, scene, update, pop, counts, objects).0)
  {
    if objects != [] {
      var init := objects[..|objects| - 1];
      CapStopsSpawning(cfg, scene, update, pop, counts, init);
      var prev := PlaceAll(cfg, scene, update, pop, counts, init);
      CapStopsSpawningStep(cfg, scene, update, prev.0, prev.1, objects[|objects| - 1]);
      KeepsShapeTransitive(pop, prev.0, PlaceAll(cfg, scene, update, pop, counts, objects).0);
    }
  }

  // ---- The manager object -----------------------------------------------------------------------

  class ObjectDisplayManager {
    var activeModels: map<int, map<int, Anchor>>
    var modelCount: int
    var maxModelCount: int
    var distanceThreshold: real
    var cocoModels: map<string, Option<Prefab>>
    var movingObjects: bool
    var scaleType: ScaleType

    ghost predicate Valid()
      reads this
    {
      PopulationValid(Population(activeModels, modelCount), maxModelCount)
    }

    function Cfg(): Config
      reads this
    {
      Config(maxModelCount, distanceThreshold, cocoModels, movingObjects, scaleType)
    }

    /** The serialised settings, and `Start`'s empty model map. */
    constructor (maxModelCount: int, distanceThreshold: real, cocoModels: map<string, Option<Prefab>>,
                 movingObjects: bool, scaleType: ScaleType)
      requires maxModelCount >= 0
      ensures Valid()
      ensures activeModels == map[] && modelCount == 0
      ensures Cfg() == Config(maxModelCount, distanceThreshold, cocoModels, movingObjects, scaleType)
    {
      this.activeModels := map[];
      this.modelCount := 0;
      this.maxModelCount := maxModelCount;
      this.distanceThreshold := distanceThreshold;
      this.cocoModels := cocoModels;
      this.movingObjects := movingObjects;
      this.scaleType := scaleType;
    }

    /** The `MovingObjects` setter. */
    method SetMovingObjects(value: bool)
      requires Valid()
      modifies this
      ensures Valid() && movingObjects == value
      ensures activeModels == old(activeModels) && modelCount == old(modelCount)
      ensures Cfg() == old(Cfg()).(movingObjects := value)
    {
      movingObjects := value;
    }

    /** `GetModel2DBounds`: the running minimum and maximum of the projected corners. */
    method GetModel2DBounds(scene: Scene, bounds3D: seq<Vec3>) returns (minPoint: Vec2, maxPoint: Vec2)
      requires |bounds3D| > 0
      ensures (minPoint, maxPoint) == Extent(ScreenPoints(scene, bounds3D))
    {
      var screenPoints := ScreenPoints(scene, bounds3D);
      var maxX, minX, maxY, minY := screenPoints[0].x, screenPoints[0].x, screenPoints[0].y, screenPoints[0].y;
      for i := 0 to |screenPoints|
        invariant (Vec2(minX, minY), Vec2(maxX, maxY)) == Extent(screenPoints[..if i == 0 then 1 else i])
      {
        var p := screenPoints[i];
        ExtentStep(screenPoints, i);
        if p.x > maxX { maxX := p.x; }
        if p.x < minX { minX := p.x; }
        if p.y > maxY { maxY := p.y; }
        if p.y < minY { minY := p.y; }
      }
      assert screenPoints[..|screenPoints|] == screenPoints;
      minPoint, maxPoint := Vec2(minX, minY), Vec2(maxX, maxY);
    }

    /** `RescaleObject`: multiplies the model's scale by the policy's factor. */
    method RescaleObject(scene: Scene, obj: DetectedObject, model: Anchor) returns (rescaled: Anchor)
      ensures rescaled == Rescaled(scaleType, scene, obj, model)
    {
      var p3 := obj.boundingBox.Max();
      var p1 := obj.boundingBox.Min();
      var sP3 := ImageToScreen(scene, p3);
      var sP1 := ImageToScreen(scene, p1);
      var newHeight := Abs(sP3.y - sP1.y);
      var newWidth := Abs(sP3.x - sP1.x);
      var minPoint, maxPoint := GetModel2DBounds(scene, Model3DBounds(scene.boundsOf(model)));
      var currentWidth := Abs(maxPoint.x - minPoint.x);
      var currentHeight := Abs(maxPoint.y - minPoint.y);
      var scaleFactor := ScaleFactor(scaleType, newWidth, newHeight, currentWidth, currentHeight);
      rescaled := model.(scale := ApplyFactor(model.scale, scaleFactor));
    }

    /** `UpdateModel`: position and rotation from the pose, `LookAt` unless the normal is used, name, rescale. */
    method UpdateModel(scene: Scene, obj: DetectedObject, id: int, pose: WorldPose, model: Anchor,
                       ghost update: Updater) returns (placed: Anchor)
      requires Implements(update, scaleType, scene)
      ensures placed == update(obj, id, pose, model)
      ensures placed.position == pose.position && placed.nameIndex == id
      ensures placed.rotation == if UseRaycastNormal(scene, pose) then pose.rotation else FacingCamera
    {
      var moved := model.(position := pose.position, rotation := pose.rotation);
      if !UseRaycastNormal(scene, pose) { moved := moved.(rotation := FacingCamera); }
      moved := moved.(name := NameOf(obj), nameIndex := id);
      placed := RescaleObject(scene, obj, moved);
      assert placed == Updated(scaleType, scene, obj, id, pose, model);
    }

    /** `DisplayModels`: one pass over the detections, in order, with fresh per-call counts. */
    method DisplayModels(objects: seq<DetectedObject>, scene: Scene)
      requires Valid()
      modifies this
      ensures Valid() && Cfg() == old(Cfg())
      ensures Population(activeModels, modelCount) ==
              PlaceAll(old(Cfg()), scene, UpdaterFor(old(scaleType), scene), old(Population(activeModels, modelCount)),
                       map[], objects).0
    {
      ghost var pop0 := Population(activeModels, modelCount);
      UpdaterForImplements(scaleType, scene);
      var objectCounts: map<int, nat> := map[];
      for i := 0 to |objects|
        invariant Cfg() == old(Cfg())
        invariant AllContiguous(activeModels)
        invariant (Population(activeModels, modelCount), objectCounts) ==
                  PlaceAll(Cfg(), scene, UpdaterFor(scaleType, scene), pop0, map[], objects[..i])
      {
        assert objects[..i + 1][..i] == objects[..i];
        objectCounts := DisplayModel(objects[i], objectCounts, scene, UpdaterFor(scaleType, scene));
      }
      assert objects[..|objects|] == objects;
      PlaceAllKeepsInvariant(Cfg(), scene, UpdaterFor(scaleType, scene), pop0, map[], objects);
    }

    /** The body of `DisplayModels`' loop for one detection; `return` is the loop's `continue`. */
    method DisplayModel(obj: DetectedObject, objectCounts: map<int, nat>, scene: Scene, ghost update: Updater)
      returns (counts: map<int, nat>)
      requires AllContiguous(activeModels) && Implements(update, scaleType, scene)
      modifies this`activeModels, this`modelCount
      ensures (Population(activeModels, modelCount), counts) ==
              Place(Cfg(), scene, update, old(Population(activeModels, modelCount)), objectCounts, obj)
    {
      counts := objectCounts;
      if !Eligible(Cfg(), counts, obj) { return; }
      var c := obj.cocoClass;
      var modelList: map<int, Anchor>;
      if c in activeModels {
        modelList := activeModels[c];
        assert activeModels[c := modelList] == activeModels;
      } else {
        modelList := map[];
        activeModels := activeModels[c := modelList];
      }
      var pose := scene.poseOf(obj);
      if IsDuplicate(scene, distanceThreshold, pose.position, modelList) { return; }
      counts := SettleModel(obj, pose, counts, scene, update);
    }

    /** The rest of the loop body once the detection is known not to be a duplicate. */
    method SettleModel(obj: DetectedObject, pose: WorldPose, objectCounts: map<int, nat>, scene: Scene, ghost update: Updater)
      returns (counts: map<int, nat>)
      requires Eligible(Cfg(), objectCounts, obj) && obj.cocoClass in activeModels
      requires AllContiguous(activeModels) && Implements(update, scaleType, scene)
      modifies this`activeModels, this`modelCount
      ensures (Population(activeModels, modelCount), counts) ==
              Settle(Cfg(), update, obj, pose, old(Population(activeModels, modelCount)), objectCounts)
    {
      var c := obj.cocoClass;
      var modelList := activeModels[c];
      var n := CountOf(objectCounts, c) + 1;
      counts := objectCounts[c := n];
      if (!movingObjects || n > |modelList|) && modelCount != maxModelCount {
        var model := Instantiate(cocoModels[obj.cocoName.value].value);
        var placed := UpdateModel(scene, obj, n, pose, model, update);
        activeModels := activeModels[c := modelList[|modelList| := placed]];
        modelCount := modelCount + 1;
      } else if n <= |modelList| && movingObjects {
        assert Contiguous(modelList);
        var placed := UpdateModel(scene, obj, n, pose, modelList[n - 1], update);
        activeModels := activeModels[c := modelList[n - 1 := placed]];
      }
    }

    /** `ClearModels`: every model destroyed, the map emptied, the counter reset. */
    method ClearModels()
      requires Valid()
      modifies this
      ensures Valid() && Cfg() == old(Cfg())
      ensures activeModels == map[] && modelCount == 0
    {
      activeModels := map[];
      modelCount := 0;
    }
  }
}
