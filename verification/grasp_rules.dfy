/**
 * The decision rules of the grasp-approach controller (`WristCameraMovement`), as pure
 * functions shared by its two variants: the data-collection script and the older script.
 *
 * Every sampler is modelled as a draw u in [0, 1] that the sampler maps onto its range,
 * and every engine query (line casts, signed angles, bounds) as a given value.
 */
module GraspRules {
  import opened Text
  import opened Wrappers
  import opened Scene

  /** Which of the two copies of the controller a rule belongs to. */
  datatype Variant = DataCollection | Legacy

  // ---------------------------------------------------------------------------
  // Object placement and rotation

  /**
   * Objects (or object-grasp combinations) that are put on the table border instead of at a
   * sampled x. The names are matched as substrings of the instance and grasp names.
   */
  predicate IsBorderObject(variant: Variant, instanceName: string, graspName: string) {
    match variant
    case DataCollection =>
      Contains(instanceName, "048_hammer")
      || Contains(instanceName, "029_plate")
      || (Contains(instanceName, "026_sponge") && Contains(graspName, "adducted_thumb"))
      || (Contains(instanceName, "037_scissors") && Contains(graspName, "adducted_thumb"))
      || (Contains(instanceName, "033_spatula") && Contains(graspName, "adducted_thumb"))
      || Contains(instanceName, "book")
      || Contains(instanceName, "book_opened")
      || Contains(instanceName, "notebook")
      || Contains(instanceName, "wallet_opened")
      || Contains(instanceName, "wallet_closed")
      || Contains(instanceName, "paintbrush(Clone)")
    case Legacy =>
      Contains(instanceName, "hammer")
      || Contains(instanceName, "plate")
      || (Contains(instanceName, "abrasive_sponge") && Contains(graspName, "adducted_thumb"))
      || Contains(instanceName, "book")
      || Contains(instanceName, "book_opened")
      || Contains(instanceName, "notebook")
      || Contains(instanceName, "wallet_opened")
      || Contains(instanceName, "wallet_closed")
      || Contains(instanceName, "paintbrush(Clone)")
  }

  /** How far beyond the table's edge a border object is put. */
  const BorderMargin: real := 0.08

  /**
   * `randomObjectPlacement`: the object stands on the plane (raised by the half-height of its
   * "textured" child) at a sampled point of the plane's footprint, except that border objects
   * get x = -extent.x - 0.08, just past the plane's near edge.
   */
  function ObjectPlacement(variant: Variant, plane: Vec3, planeExtents: Vec3, instanceName: string,
                           graspName: string, halfHeight: real, ux: Unit, uz: Unit): Vec3
  {
    var sampleX := Uniform(-planeExtents.x, planeExtents.x, ux);
    var sampleZ := Uniform(-planeExtents.z, planeExtents.z, uz);
    var x := if IsBorderObject(variant, instanceName, graspName) then -planeExtents.x - BorderMargin else sampleX;
    Plus(plane, Vec3(x, halfHeight, sampleZ))
  }

  /**
   * The object rests at the plane's height plus its half-height, at a z within the plane's
   * footprint, and at an x within the footprint unless it is a border object, which gets
   * the fixed x just past the near edge.
   */
  lemma ObjectPlacementBounds(variant: Variant, plane: Vec3, planeExtents: Vec3, instanceName: string,
                              graspName: string, halfHeight: real, ux: Unit, uz: Unit)
    ensures var p := ObjectPlacement(variant, plane, planeExtents, instanceName, graspName, halfHeight, ux, uz);
            p.y == plane.y + halfHeight &&
            (0.0 <= planeExtents.z ==> plane.z - planeExtents.z <= p.z <= plane.z + planeExtents.z) &&
            (IsBorderObject(variant, instanceName, graspName) ==> p.x == plane.x - planeExtents.x - BorderMargin) &&
            (!IsBorderObject(variant, instanceName, graspName) && 0.0 <= planeExtents.x ==>
               plane.x - planeExtents.x <= p.x <= plane.x + planeExtents.x)
  {
    if 0.0 <= planeExtents.z {
      UniformBounds(-planeExtents.z, planeExtents.z, uz);
    }
    if 0.0 <= planeExtents.x {
      UniformBounds(-planeExtents.x, planeExtents.x, ux);
    }
  }

  /** A border object lies outside the footprint, a fixed margin past the near edge. */
  lemma BorderObjectOutsideFootprint(variant: Variant, plane: Vec3, planeExtents: Vec3, instanceName: string,
                                     graspName: string, halfHeight: real, ux: Unit, uz: Unit)
    requires IsBorderObject(variant, instanceName, graspName)
    ensures ObjectPlacement(variant, plane, planeExtents, instanceName, graspName, halfHeight, ux, uz).x
            < plane.x - planeExtents.x
  {
  }

  /** The roll of the object: 180 (upside down) or 0, decided by the grasp's tags. */
  function ObjectRoll(graspName: string, uUpsideDown: Unit): (z: real)
    ensures z == 0.0 || z == 180.0
  {
    if Contains(graspName, "[usd]") then 180.0
    else if Contains(graspName, "[susd]") then (if uUpsideDown > 0.5 then 180.0 else 0.0)
    else 0.0
  }

  /**
   * A "[usd]" grasp is always executed upside down and an untagged grasp never; a "[susd]"
   * grasp (without "[usd]") can be executed either way, depending on the draw.
   */
  lemma ObjectRollByTag(graspName: string, u: Unit)
    ensures Contains(graspName, "[usd]") ==> ObjectRoll(graspName, u) == 180.0
    ensures !Contains(graspName, "[usd]") && !Contains(graspName, "[susd]") ==> ObjectRoll(graspName, u) == 0.0
    ensures !Contains(graspName, "[usd]") && Contains(graspName, "[susd]") ==>
              (ObjectRoll(graspName, u) == 180.0 <==> u > 0.5)
  {
  }

  /** `randomObjectRotation`: Euler(0, yaw, roll) with the yaw drawn from [0, 360]. */
  function ObjectRotation(graspName: string, uYaw: Unit, uUpsideDown: Unit): Rotation {
    Euler(0.0, Uniform(0.0, 360.0, uYaw), ObjectRoll(graspName, uUpsideDown))
  }

  /** The object keeps x = 0, turns by a yaw within [0, 360] and gets the roll its tags call for. */
  lemma ObjectRotationRanges(graspName: string, uYaw: Unit, uUpsideDown: Unit)
    ensures var r := ObjectRotation(graspName, uYaw, uUpsideDown);
            r.Euler? && r.x == 0.0 && 0.0 <= r.y <= 360.0 && r.z == ObjectRoll(graspName, uUpsideDown)
  {
    UniformBounds(0.0, 360.0, uYaw);
  }

  /** `randomWristCameraPlacement`: a point of the camera plane, drawn within its y and z extents. */
  function CameraPlacement(plane: Vec3, planeExtents: Vec3, uy: Unit, uz: Unit): Vec3 {
    Plus(Vec3(0.0, Uniform(-planeExtents.y, planeExtents.y, uy), Uniform(-planeExtents.z, planeExtents.z, uz)), plane)
  }

  /** The camera stays in the plane's x and within its y and z extents. */
  lemma CameraPlacementInPlane(plane: Vec3, planeExtents: Vec3, uy: Unit, uz: Unit)
    ensures var p := CameraPlacement(plane, planeExtents, uy, uz);
            p.x == plane.x &&
            (0.0 <= planeExtents.y ==> plane.y - planeExtents.y <= p.y <= plane.y + planeExtents.y) &&
            (0.0 <= planeExtents.z ==> plane.z - planeExtents.z <= p.z <= plane.z + planeExtents.z)
  {
    if 0.0 <= planeExtents.y {
      UniformBounds(-planeExtents.y, planeExtents.y, uy);
    }
    if 0.0 <= planeExtents.z {
      UniformBounds(-planeExtents.z, planeExtents.z, uz);
    }
  }

  /**
   * `GetRandomPointInsideCollider` (older variant), in the collider's own coordinates: each
   * coordinate is drawn within half the box size; the engine maps the point to the world.
   */
  function LocalColliderPoint(size: Vec3, ux: Unit, uy: Unit, uz: Unit): Vec3 {
    var e := Vec3(size.x / 2.0, size.y / 2.0, size.z / 2.0);
    Vec3(Uniform(-e.x, e.x, ux), Uniform(-e.y, e.y, uy), Uniform(-e.z, e.z, uz))
  }

  /** The drawn point lies inside the box: each coordinate within half the box's size. */
  lemma LocalColliderPointInBox(size: Vec3, ux: Unit, uy: Unit, uz: Unit)
    ensures var p := LocalColliderPoint(size, ux, uy, uz);
            (0.0 <= size.x ==> -size.x / 2.0 <= p.x <= size.x / 2.0) &&
            (0.0 <= size.y ==> -size.y / 2.0 <= p.y <= size.y / 2.0) &&
            (0.0 <= size.z ==> -size.z / 2.0 <= p.z <= size.z / 2.0)
  {
    if 0.0 <= size.x {
      UniformBounds(-size.x / 2.0, size.x / 2.0, ux);
    }
    if 0.0 <= size.y {
      UniformBounds(-size.y / 2.0, size.y / 2.0, uy);
    }
    if 0.0 <= size.z {
      UniformBounds(-size.z / 2.0, size.z / 2.0, uz);
    }
  }

  // ---------------------------------------------------------------------------
  // Pronation-supination

  /** The pronation-supination angle: not a number for "[nops]" grasps, otherwise degrees. */
  datatype PsAngle = NaN | Deg(d: real)

  function Abs(r: real): real { if r < 0.0 then -r else r }

  /** `Mathf.Sign`: 1 for zero and positive values, -1 for negative ones. */
  function Sign(r: real): real { if r >= 0.0 then 1.0 else -1.0 }

  /** Grasp/object pairs whose rotation must be a supination (thumb up): the angle is made non-positive. */
  predicate ForcedSupination(variant: Variant, graspName: string, objName: string) {
    match variant
    case DataCollection =>
      Contains(graspName, "adducted_thumb")
      || (Contains(graspName, "small_diameter") && Contains(objName, "048_hammer"))
      || (Contains(graspName, "medium_wrap") && Contains(objName, "010_potted_meat_can"))
      || (Contains(graspName, "large_diameter") && Contains(objName, "006_mustard_bottle"))
      || (Contains(graspName, "large_diameter") && Contains(objName, "001_chips_can"))
      || (Contains(graspName, "prismatic_2fingers") && Contains(objName, "025_mug"))
      || (Contains(graspName, "large_diameter") && Contains(objName, "025_mug"))
    case Legacy =>
      Contains(graspName, "adducted_thumb")
      || (Contains(graspName, "small_diameter") && Contains(objName, "hammer"))
      || (Contains(graspName, "medium_wrap") && Contains(objName, "meat_can"))
      || (Contains(graspName, "large_diameter") && Contains(objName, "mustard"))
      || (Contains(graspName, "large_diameter") && Contains(objName, "pringles"))
      || (Contains(graspName, "prismatic_2fingers") && Contains(objName, "red_mug"))
      || (Contains(graspName, "large_diameter") && Contains(objName, "red_mug"))
  }

  /**
   * The pronation-supination angle before scaling, from the engine's signed angle `raw`
   * between the camera's and the grasp's right axes.
   */
  function NormalisedPs(variant: Variant, graspName: string, objName: string, raw: real): PsAngle
  {
    if Contains(graspName, "[nops]") then NaN
    else if ForcedSupination(variant, graspName, objName) then
      Deg(if raw > 0.0 then -raw else raw)
    else
      var folded := if Abs(raw) > 90.0 then raw + Sign(raw) * -1.0 * 180.0 else raw;
      Deg(-folded)
  }

  /**
   * For the forced pairs the rotation is a supination of the measured size. Otherwise it
   * turns the camera's right axis onto the grasp's right axis or its opposite (a half-turn
   * apart), and for an angle in [-180, 180] it is at most 90 degrees either way.
   */
  lemma NormalisedPsNaN(variant: Variant, graspName: string, objName: string, raw: real)
    ensures NormalisedPs(variant, graspName, objName, raw).NaN? <==> Contains(graspName, "[nops]")
  {
  }

  lemma NormalisedPsMeaning(variant: Variant, graspName: string, objName: string, raw: real)
    requires !Contains(graspName, "[nops]")
    ensures var a := NormalisedPs(variant, graspName, objName, raw);
            a.Deg? &&
            (ForcedSupination(variant, graspName, objName) ==> a.d <= 0.0 && Abs(a.d) == Abs(raw)) &&
            (!ForcedSupination(variant, graspName, objName) ==>
               (raw + a.d == 0.0 || raw + a.d == 180.0 || raw + a.d == -180.0) &&
               (-180.0 <= raw <= 180.0 ==> -90.0 <= a.d <= 90.0))
  {
  }

  /** `psAngle *= percentage`: NaN stays NaN; a share in [0, 1] keeps the sign and shrinks the size. */
  function ScalePs(a: PsAngle, share: Unit): PsAngle {
    match a
    case NaN => NaN
    case Deg(d) => Deg(d * share)
  }

  lemma ScalePsBounds(a: PsAngle, share: Unit)
    ensures var s := ScalePs(a, share);
            (s.NaN? <==> a.NaN?) &&
            (a.Deg? ==> Abs(s.d) <= Abs(a.d) && (a.d <= 0.0 ==> s.d <= 0.0) && (a.d >= 0.0 ==> s.d >= 0.0))
  {
    if a.Deg? {
      ScaledAngle(a.d, share);
    }
  }

  /** Scaling by a share in [0, 1] keeps the sign and does not grow the size. */
  lemma ScaledAngle(d: real, u: Unit)
    ensures Abs(d * u) <= Abs(d)
    ensures d <= 0.0 ==> d * u <= 0.0
    ensures d >= 0.0 ==> d * u >= 0.0
  {
    var e := Abs(d);
    assert e >= 0.0;
    ShareBounds(u, e);
    var s := u * e;
    assert 0.0 <= s <= e;
    assert d * u == if d >= 0.0 then s else -s;
  }

  // ---------------------------------------------------------------------------
  // Approach and flexion-extension targets

  /**
   * The two extremities of the grasp box along its local z axis, through the accepted point:
   * `up` is half a height below it in z, `down` half a height above.
   */
  function Extremities(local: Vec3, halfHeight: real): (Vec3, Vec3) {
    (Plus(local, Vec3(0.0, 0.0, -halfHeight)), Plus(local, Vec3(0.0, 0.0, halfHeight)))
  }

  /** The extremities lie a whole height apart on the z line through the point, centred on it. */
  lemma ExtremitiesGeometry(local: Vec3, halfHeight: real)
    ensures var ends := Extremities(local, halfHeight);
            ends.0.x == ends.1.x == local.x && ends.0.y == ends.1.y == local.y &&
            ends.1.z - ends.0.z == 2.0 * halfHeight &&
            (ends.0.z + ends.1.z) / 2.0 == local.z
  {
  }

  /** The point the camera travels to and the point the flexion-extension turns towards. */
  datatype Targets = Targets(approach: Vec3, flexion: Vec3)

  /** A draw above 0.5 approaches the upper extremity and flexes towards the lower one; otherwise the reverse. */
  function ChooseTargets(up: Vec3, down: Vec3, u: Unit): Targets {
    if u > 0.5 then Targets(up, down) else Targets(down, up)
  }

  /** The two roles share out the two extremities; the approach takes `up` exactly for a draw above 0.5. */
  lemma ChooseTargetsRoles(up: Vec3, down: Vec3, u: Unit)
    ensures var t := ChooseTargets(up, down, u);
            {t.approach, t.flexion} == {up, down} && (t.approach == up <==> (u > 0.5 || up == down))
  {
  }

  /** With a box of non-zero height, the two roles always take different extremities. */
  lemma TargetsDistinct(local: Vec3, halfHeight: real, u: Unit)
    requires halfHeight != 0.0
    ensures var ends := Extremities(local, halfHeight);
            var t := ChooseTargets(ends.0, ends.1, u);
            t.approach != t.flexion && (t.approach.z + t.flexion.z) / 2.0 == local.z
  {
    ExtremitiesGeometry(local, halfHeight);
    var ends := Extremities(local, halfHeight);
    ChooseTargetsRoles(ends.0, ends.1, u);
  }

  // ---------------------------------------------------------------------------
  // Per-frame rotations

  /** The pronation-supination increment applied on the frame numbered `counter` (first frame is 1). */
  function PsIncrement(counter: int, start: int, duration: int, a: PsAngle): (inc: real)
    ensures (counter < start || counter >= start + duration || a.NaN?) ==> inc == 0.0
  {
    if start <= counter < start + duration && a.Deg? then a.d / duration as real else 0.0
  }

  /** The pronation-supination applied over frames 1 .. c. */
  function PsTotal(c: nat, start: int, duration: int, a: PsAngle): real
    decreases c
  {
    if c == 0 then 0.0 else PsTotal(c - 1, start, duration, a) + PsIncrement(c, start, duration, a)
  }

  /** How many of the frames 1 .. c fall in the window start .. start+duration-1. */
  function WindowFrames(c: nat, start: int, duration: int): nat
    decreases c
  {
    if c == 0 then 0
    else WindowFrames(c - 1, start, duration) + (if start <= c < start + duration then 1 else 0)
  }

  /** The applied rotation is the angle's share for the frames of the window seen so far. */
  lemma {:induction false} PsTotalByWindow(c: nat, start: int, duration: int, d: real)
    requires duration > 0
    ensures PsTotal(c, start, duration, Deg(d)) == WindowFrames(c, start, duration) as real * (d / duration as real)
    decreases c
  {
    if c > 0 {
      PsTotalByWindow(c - 1, start, duration, d);
      var w := WindowFrames(c - 1, start, duration) as real;
      assert (w + 1.0) * (d / duration as real) == w * (d / duration as real) + d / duration as real;
    }
  }

  /** A window that lies within the frames 1 .. c is counted in full once c has passed it. */
  lemma {:induction false} WindowFramesFull(c: nat, start: int, duration: int)
    requires 1 <= start && duration >= 0 && start + duration - 1 <= c
    ensures WindowFrames(c, start, duration) == duration
    decreases c
  {
    if c > 0 {
      if start + duration - 1 <= c - 1 {
        WindowFramesFull(c - 1, start, duration);
      } else {
        WindowFramesUpTo(c - 1, start, duration);
      }
    }
  }

  /** Before the window ends, the count is the number of window frames already passed. */
  lemma {:induction false} WindowFramesUpTo(c: nat, start: int, duration: int)
    requires 1 <= start && c < start + duration
    ensures WindowFrames(c, start, duration) == if c < start then 0 else c - start + 1
    decreases c
  {
    if c > 0 {
      WindowFramesUpTo(c - 1, start, duration);
    }
  }

  /**
   * A pronation-supination window of positive length that fits in the iteration's F frames is
   * applied in full: the roll increments add up to the (scaled) angle.
   */
  lemma PsAppliedInFull(frames: nat, start: int, duration: int, d: real)
    requires 1 <= start && duration > 0 && start + duration - 1 <= frames
    ensures PsTotal(frames, start, duration, Deg(d)) == d
  {
    PsTotalByWindow(frames, start, duration, d);
    WindowFramesFull(frames, start, duration);
  }

  /** A "[nops]" iteration never rolls the camera. */
  lemma NoPsForNaN(c: nat, start: int, duration: int)
    ensures PsTotal(c, start, duration, NaN) == 0.0
  {
    if c > 0 {
      NoPsForNaN(c - 1, start, duration);
    }
  }

  /**
   * The flexion-extension sign lock for the frame numbered `counter`: on the first
   * flexion-extension frame the sign of the measured angle is recorded (positive iff > 0);
   * on later frames an angle of the other sign is negated. Returns the applied angle and
   * the new lock.
   */
  function FeStep(counter: int, feStart: int, isPositive: bool, fe: real): (real, bool) {
    if counter == feStart then (fe, fe > 0.0)
    else if (isPositive && fe < 0.0) || (!isPositive && fe > 0.0) then (-fe, isPositive)
    else (fe, isPositive)
  }

  /**
   * The lock keeps the angle's size; the first frame records its sign, and later frames
   * keep the lock and apply an angle of the locked sign.
   */
  lemma FeStepLock(counter: int, feStart: int, isPositive: bool, fe: real)
    ensures var r := FeStep(counter, feStart, isPositive, fe);
            Abs(r.0) == Abs(fe) &&
            (counter == feStart ==> r == (fe, fe > 0.0)) &&
            (counter != feStart ==> r.1 == isPositive && (isPositive ==> r.0 >= 0.0) && (!isPositive ==> r.0 <= 0.0))
  {
  }

  /** The pitch applied per flexion-extension frame is a tenth of the locked angle. */
  const FeGain: real := 0.1

  // ---------------------------------------------------------------------------
  // The hand in view

  datatype HandModel = FpsArmsHigh | Arm02 | HannesArm | UnknownHand

  /** Which hand model a hand object is, by name; the older variant knows two models, the newer one three. */
  function HandModelOf(variant: Variant, handName: string): (m: HandModel)
    ensures variant.DataCollection? ==> m != FpsArmsHigh
    ensures variant.Legacy? ==> m != HannesArm
  {
    match variant
    case DataCollection =>
      if Contains(handName, "Arm02") then Arm02
      else if Contains(handName, "Hannes_ARM") then HannesArm
      else UnknownHand
    case Legacy =>
      if Contains(handName, "FpsArmsHigh") then FpsArmsHigh
      else if Contains(handName, "Arm02") then Arm02
      else UnknownHand
  }

  /** The upper bounds of the hand samplers (each one draws from [0, bound]). */
  datatype HandRanges = HandRanges(posX: real, posY: real, posZ: real, rotX: real, rotY: real, rotZ: real)

  /** The hand sampler ranges chosen at setup; models without hard-coded ranges get none. */
  function HandRangesFor(variant: Variant, model: HandModel): (r: Option<HandRanges>)
    ensures r.Some? <==> model == Arm02 || (variant.Legacy? && model == FpsArmsHigh)
  {
    if model == Arm02 then Some(HandRanges(0.02, 0.001, 0.1, 1.0, 3.0, 5.0))
    else if variant.Legacy? && model == FpsArmsHigh then Some(HandRanges(0.03, 0.015, 0.15, 6.0, 2.0, 0.0))
    else None
  }

  /** The six hand draws, in the order the script takes them; the last feeds the z rotation. */
  datatype HandDraws = HandDraws(px: Unit, py: Unit, pz: Unit, rx: Unit, ry: Unit, rzFromPosZ: Unit)

  /** The fixed pose the older variant resets a hand model to before adding the draws. */
  function BasePose(model: HandModel): Pose {
    match model
    case FpsArmsHigh => Pose(Vec3(-0.02, 0.02, 0.1), Euler(3.236, -72.411, 3.372))
    case _ => Pose(Vec3(0.04, -0.008, 0.2), Euler(-50.0, -79.0, -27.0))
  }

  /**
   * `randomHandTransform` once it has fired: the new local pose of the hand, and whether the
   * model was unknown (an error and a stop request; the hand then gets the neutral pose).
   * Arm02 starts from the current pose in the newer variant and from a fixed base pose in
   * the older one; FpsArmsHigh (older variant only) from its own base pose. The position is
   * offset by the drawn amounts with the model's signs, and the rotation is composed with
   * Euler(rx,0,0), Euler(0,ry,0) and Euler(0,0,rz), rz being drawn from the position-z sampler.
   */
  function HandTransform(variant: Variant, model: HandModel, current: Pose, draws: HandDraws): (r: (Pose, bool))
    ensures r.1 <==> HandRangesFor(variant, model).None?
    ensures r.1 ==> r.0 == NeutralPose
  {
    match HandRangesFor(variant, model)
    case None => (NeutralPose, true)
    case Some(rg) =>
      var base := if variant.DataCollection? then current else BasePose(model);
      var dx := Uniform(0.0, rg.posX, draws.px);
      var dy := Uniform(0.0, rg.posY, draws.py);
      var dz := Uniform(0.0, rg.posZ, draws.pz);
      var offset := if model == FpsArmsHigh then Vec3(dx, dy, -dz) else Vec3(dx, -dy, dz);
      var rot := Compose(Compose(Compose(base.rotation, Euler(Uniform(0.0, rg.rotX, draws.rx), 0.0, 0.0)),
                                 Euler(0.0, Uniform(0.0, rg.rotY, draws.ry), 0.0)),
                         Euler(0.0, 0.0, Uniform(0.0, rg.posZ, draws.rzFromPosZ)));
      (Pose(Plus(base.position, offset), rot), false)
  }

  /**
   * The hand moves by at most the sampler ranges, in the model's directions, and its last
   * rotation step (about z) stays within the position-z range, not the rotation-z range.
   */
  lemma HandTransformBounds(variant: Variant, model: HandModel, current: Pose, draws: HandDraws)
    requires HandRangesFor(variant, model).Some?
    ensures var rg := HandRangesFor(variant, model).value;
            var base := if variant.DataCollection? then current.position else BasePose(model).position;
            var p := HandTransform(variant, model, current, draws).0;
            base.x <= p.position.x <= base.x + rg.posX &&
            (model == FpsArmsHigh ==> base.y <= p.position.y <= base.y + rg.posY && base.z - rg.posZ <= p.position.z <= base.z) &&
            (model != FpsArmsHigh ==> base.y - rg.posY <= p.position.y <= base.y && base.z <= p.position.z <= base.z + rg.posZ) &&
            p.rotation.Compose? && p.rotation.second.Euler? && 0.0 <= p.rotation.second.z <= rg.posZ
  {
    var rg := HandRangesFor(variant, model).value;
    UniformBounds(0.0, rg.posX, draws.px);
    UniformBounds(0.0, rg.posY, draws.py);
    UniformBounds(0.0, rg.posZ, draws.pz);
    UniformBounds(0.0, rg.posZ, draws.rzFromPosZ);
  }
}
