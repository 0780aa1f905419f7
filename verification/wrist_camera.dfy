/**
 * The `WristCameraMovement` randomizer: the controller that, for every iteration of the
 * scenario, picks the object-grasp pair to execute, places the camera, the object and the
 * hand, searches for a camera position whose line of sight hits the intended grasp, and
 * then moves the camera towards the grasp frame by frame.
 *
 * One class models both variants (the data-collection script and the older script); the
 * `variant` constant selects the few rules in which they differ. Everything the engine or
 * a sampler supplies is an input: the draws of one iteration start arrive as a
 * `StartDraws` value, and the signed angle measured on a frame is a parameter of `OnUpdate`.
 * A stop request (`isPlaying = false`) appends a `Fault` to the error log; an exception
 * ends the call with a `Threw` outcome.
 */
module WristCamera {
  import opened Wrappers
  import opened Scene
  import opened GraspRules
  import opened PairQueue
  import opened MinimumJerk

  /** A grasp child of an object's "textured" node: its name, box collider size and mesh half-height (z). */
  datatype GraspChild = GraspChild(name: string, boxSize: Vec3, meshHalfHeight: real)

  /** A prefab: its name, the half-height (y) of its "textured" renderer, its material and its grasp children. */
  datatype Prefab = Prefab(name: string, halfHeight: real, material: Material, grasps: seq<GraspChild>)

  /** The number of grasp children of each prefab. */
  function GraspCounts(prefabs: seq<Prefab>): (counts: seq<nat>)
    ensures |counts| == |prefabs|
    ensures forall o :: 0 <= o < |prefabs| ==> counts[o] == |prefabs[o].grasps|
  {
    seq(|prefabs|, o requires 0 <= o < |prefabs| => |prefabs[o].grasps|)
  }

  /** A pair names an existing prefab and one of its grasp children. */
  predicate PairIn(prefabs: seq<Prefab>, p: Pair) {
    p.0 < |prefabs| && p.1 < |prefabs[p.0].grasps|
  }

  /** The name of the pooled instance of a prefab. */
  function InstanceName(p: Prefab): string {
    p.name + "(Clone)"
  }

  /** Errors logged together with a stop request. */
  datatype Fault =
    | SetupCountMismatch(pairs: nat, perGrasp: int, declared: int)
    | HandModelUnsupported(model: HandModel)
    | NoCollision
    | NoFeasiblePose

  datatype Exception = DivideByZero | ArgumentOutOfRange | NullReference

  datatype Outcome = Completed | Threw(exception: Exception)

  /** A rotation step applied to the camera after it was aimed: roll about z or pitch about x, in degrees. */
  datatype Turn = Roll(z: real) | Pitch(x: real)

  /** The total roll of a list of turns. */
  function RollSum(turns: seq<Turn>): real
    decreases |turns|
  {
    if |turns| == 0 then 0.0
    else RollSum(turns[..|turns| - 1]) + (match turns[|turns| - 1] case Roll(z) => z case Pitch(_) => 0.0)
  }

  /** The roll applied on frame c: the angle's share inside the pronation-supination window. */
  function FrameRoll(c: int, start: int, duration: int, a: PsAngle): (t: seq<Turn>)
    ensures RollSum(t) == PsIncrement(c, start, duration, a)
  {
    if start <= c < start + duration && a.Deg? then [Roll(PsIncrement(c, start, duration, a))] else []
  }

  /**
   * The pitch applied on frame c and the new sign lock: nothing before the flexion-extension
   * start; from it on, a tenth of the angle the sign lock lets through.
   */
  function FramePitch(c: int, feStart: int, isPositive: bool, fe: real): (seq<Turn>, bool) {
    if c >= feStart then
      var step := FeStep(c, feStart, isPositive, fe);
      ([Pitch(FeGain * step.0)], step.1)
    else ([], isPositive)
  }

  /**
   * Before the flexion-extension start nothing pitches and the lock is kept; from it on one
   * pitch a tenth of the measured angle's size is applied, with the sign recorded on the
   * first frame and kept afterwards.
   */
  lemma FramePitchMeaning(c: int, feStart: int, isPositive: bool, fe: real)
    ensures var r := FramePitch(c, feStart, isPositive, fe);
            (c < feStart ==> r == ([], isPositive)) &&
            (c >= feStart ==> |r.0| == 1 && r.0[0].Pitch? && GraspRules.Abs(r.0[0].x) == FeGain * GraspRules.Abs(fe)) &&
            (c == feStart ==> r.1 == (fe > 0.0) && r.0 == [Pitch(FeGain * fe)]) &&
            (c > feStart ==> r.1 == isPositive && (isPositive ==> r.0[0].x >= 0.0) && (!isPositive ==> r.0[0].x <= 0.0))
  {
    FeStepLock(c, feStart, isPositive, fe);
    var x := FeStep(c, feStart, isPositive, fe).0;
    assert GraspRules.Abs(FeGain * x) == FeGain * GraspRules.Abs(x);
  }

  /** Pitches leave the total roll unchanged. */
  lemma PitchKeepsRoll(turns: seq<Turn>, pitch: seq<Turn>)
    requires pitch == [] || (|pitch| == 1 && pitch[0].Pitch?)
    ensures RollSum(turns + pitch) == RollSum(turns)
  {
    if pitch != [] {
      assert (turns + pitch)[..|turns + pitch| - 1] == turns;
      assert (turns + pitch)[|turns + pitch| - 1] == pitch[0];
    } else {
      assert turns + pitch == turns;
    }
  }

  /** Appending the turns of one more frame adds that frame's roll. */
  lemma {:induction false} RollSumAppend(turns: seq<Turn>, more: seq<Turn>)
    requires more == [] || (|more| == 1 && more[0].Roll?)
    ensures RollSum(turns + more) == RollSum(turns) + RollSum(more)
  {
    if more != [] {
      assert (turns + more)[..|turns + more| - 1] == turns;
      assert (turns + more)[|turns + more| - 1] == more[0];
      assert more[..0] == [];
    } else {
      assert turns + more == turns;
    }
  }

  /**
   * The state of an approach in progress after `fc` frames: the offsets not yet consumed,
   * the distance the camera has moved (it starts the reference-to-camera offset behind),
   * and the roll applied so far.
   */
  ghost predicate Motion(planned: seq<(real, real)>, fc: nat, points: seq<(real, real)>, travelled: real,
                         turns: seq<Turn>, psStart: int, psDuration: int, psAngle: PsAngle,
                         distance: real, frames: int)
  {
    fc <= |planned| && points == planned[fc..] &&
    travelled == SumY(planned[..fc]) - ReferenceToCameraOffset &&
    RollSum(turns) == PsTotal(fc, psStart, psDuration, psAngle) &&
    (frames > 0 ==> |planned| == frames && SumY(planned) == distance) &&
    (frames <= 0 ==> planned == [])
  }

  /** A freshly planned approach. */
  lemma MotionStart(planned: seq<(real, real)>, psStart: int, psDuration: int, psAngle: PsAngle,
                    distance: real, frames: int)
    requires frames > 0 ==> IsTrajectory(planned, 0.0, 0.0, 0.0, distance, frames)
    requires frames <= 0 ==> planned == []
    ensures Motion(planned, 0, planned, -ReferenceToCameraOffset, [], psStart, psDuration, psAngle, distance, frames)
  {
    assert planned[..0] == [];
    if frames > 0 {
      TrajectoryReachesTarget(planned, 0.0, 0.0, 0.0, distance, frames);
    }
  }

  /** One frame: the front offset is consumed and the frame's roll, then any pitch, appended. */
  lemma MotionAdvance(planned: seq<(real, real)>, fc: nat, points: seq<(real, real)>, travelled: real,
                      turns: seq<Turn>, psStart: int, psDuration: int, psAngle: PsAngle,
                      distance: real, frames: int, pitch: seq<Turn>)
    requires Motion(planned, fc, points, travelled, turns, psStart, psDuration, psAngle, distance, frames)
    requires |points| > 0
    requires pitch == [] || (|pitch| == 1 && pitch[0].Pitch?)
    ensures Motion(planned, fc + 1, points[1..], travelled + points[0].1,
                   turns + FrameRoll(fc + 1, psStart, psDuration, psAngle) + pitch,
                   psStart, psDuration, psAngle, distance, frames)
  {
    assert planned[..fc + 1] == planned[..fc] + [planned[fc]];
    assert planned[..fc + 1][..fc] == planned[..fc];
    var roll := FrameRoll(fc + 1, psStart, psDuration, psAngle);
    RollSumAppend(turns, roll);
    PitchKeepsRoll(turns + roll, pitch);
  }

  /** After the last planned frame the camera has covered the whole distance. */
  lemma MotionArrives(planned: seq<(real, real)>, fc: nat, points: seq<(real, real)>, travelled: real,
                      turns: seq<Turn>, psStart: int, psDuration: int, psAngle: PsAngle,
                      distance: real, frames: int)
    requires Motion(planned, fc, points, travelled, turns, psStart, psDuration, psAngle, distance, frames)
    requires frames > 0 && fc == frames
    ensures travelled == distance - ReferenceToCameraOffset
  {
    assert planned[..fc] == planned;
  }

  /** `n` copies of a fault. */
  function Repeat(f: Fault, n: nat): (fs: seq<Fault>)
    ensures |fs| == n && forall j :: 0 <= j < n ==> fs[j] == f
  {
    seq(n, _ => f)
  }

  /** The hand models whose pose and material the script knows how to randomize. */
  predicate HandSupported(variant: Variant, model: HandModel) {
    HandRangesFor(variant, model).Some?
  }

  /** The camera's offset between its reference frame and the camera itself. */
  const ReferenceToCameraOffset: real := 0.2

  /**
   * The draws of one iteration start. Streams indexed by `g` give the g-th draw of that
   * sampler (0 for the first placement, g for the g-th resample); `colliderDraws(i)` is the
   * point drawn in attempt i (older variant). `cast(g, i)` is the line cast of attempt i
   * after g resamples. `rawPs` is the signed angle the engine measures between the camera's
   * and the grasp's right axes, and `distance` the distance from the camera to the chosen target.
   * `giveUpTarget` is the approach point, in the grasp's coordinates, that the engine leaves
   * after a search that gave up: the last attempt's world point, which that attempt's
   * resample may have left behind in the grasp's old frame.
   */
  datatype StartDraws = StartDraws(
    cameraDraws: nat -> (Unit, Unit),
    placementDraws: nat -> (Unit, Unit),
    rotationDraws: nat -> (Unit, Unit),
    colliderDraws: nat -> (Unit, Unit, Unit),
    handApply: Unit, hand: HandDraws,
    handMaterialApply: Unit, handMaterial: Material,
    objMaterialApply: Unit, objMaterial: Material,
    cast: (nat, nat) -> Hit,
    rawPs: real, psShare: Unit, psStart: int, psDuration: int,
    targetDraw: Unit, feStart: int, distance: real, giveUpTarget: Vec3)

  /** The point aimed at in attempt i, in the grasp's own coordinates: its centre, or a drawn point (older variant). */
  function AttemptTarget(variant: Variant, grasp: GraspChild, draws: nat -> (Unit, Unit, Unit), i: nat): Vec3 {
    match variant
    case DataCollection => Vec3(0.0, 0.0, 0.0)
    case Legacy => LocalColliderPoint(grasp.boxSize, draws(i).0, draws(i).1, draws(i).2)
  }

  /** The newer variant aims at the grasp's centre; the older one at a point inside its collider box. */
  lemma AttemptTargetInBox(variant: Variant, grasp: GraspChild, draws: nat -> (Unit, Unit, Unit), i: nat)
    ensures var p := AttemptTarget(variant, grasp, draws, i);
            (variant.DataCollection? ==> p == Vec3(0.0, 0.0, 0.0)) &&
            (variant.Legacy? ==> (0.0 <= grasp.boxSize.x ==> -grasp.boxSize.x / 2.0 <= p.x <= grasp.boxSize.x / 2.0) &&
                                 (0.0 <= grasp.boxSize.y ==> -grasp.boxSize.y / 2.0 <= p.y <= grasp.boxSize.y / 2.0) &&
                                 (0.0 <= grasp.boxSize.z ==> -grasp.boxSize.z / 2.0 <= p.z <= grasp.boxSize.z / 2.0))
  {
    if variant.Legacy? {
      LocalColliderPointInBox(grasp.boxSize, draws(i).0, draws(i).1, draws(i).2);
    }
  }

  /**
   * The nested loop of `OnAwake`: one pair per grasp child of each prefab, object-major.
   */
  method ListPairs(prefabs: seq<Prefab>) returns (pairs: seq<Pair>)
    ensures pairs == PairsFrom(GraspCounts(prefabs))
    ensures forall p :: p in pairs <==> PairIn(prefabs, p)
  {
    ghost var counts := GraspCounts(prefabs);
    pairs := [];
    var idxObj := 0;
    while idxObj < |prefabs|
      invariant 0 <= idxObj <= |prefabs|
      invariant pairs == PairsFrom(counts[..idxObj])
    {
      var idxGrasp := 0;
      while idxGrasp < |prefabs[idxObj].grasps|
        invariant 0 <= idxGrasp <= |prefabs[idxObj].grasps|
        invariant pairs == PairsFrom(counts[..idxObj]) + GraspsOf(idxObj, idxGrasp)
      {
        assert GraspsOf(idxObj, idxGrasp + 1) == GraspsOf(idxObj, idxGrasp) + [(idxObj, idxGrasp)];
        pairs := pairs + [(idxObj, idxGrasp)];
        idxGrasp := idxGrasp + 1;
      }
      assert counts[..idxObj + 1][..idxObj] == counts[..idxObj];
      idxObj := idxObj + 1;
    }
    assert counts[..|prefabs|] == counts;
    forall p: Pair
      ensures p in pairs <==> PairIn(prefabs, p)
    {
      PairsFromMembership(counts, p);
    }
  }

  /**
   * The engine objects the randomizer drives: the wrist camera's position, the pooled
   * object's transform, the hand's transform and material, the materials of the pooled
   * instances, the pool's instances in use, and the console, where faults are logged.
   */
  class SceneObjects {
    var cameraPosition: Vec3
    var objectPosition: Vec3
    var objectRotation: Rotation
    var handPose: Pose
    var handMaterial: Material
    /** Materials assigned to pooled instances; an instance not listed has its prefab's material. */
    var objectMaterials: map<nat, Material>
    /** The prefabs whose pooled instance is in use. */
    var pooled: set<nat>
    var log: seq<Fault>

    constructor(handPose: Pose, handMaterial: Material)
      ensures this.handPose == handPose && this.handMaterial == handMaterial
      ensures objectMaterials == map[] && pooled == {} && log == []
    {
      cameraPosition := Vec3(0.0, 0.0, 0.0);
      objectPosition := Vec3(0.0, 0.0, 0.0);
      objectRotation := Euler(0.0, 0.0, 0.0);
      this.handPose := handPose;
      this.handMaterial := handMaterial;
      objectMaterials := map[];
      pooled := {};
      log := [];
    }
  }

  class WristCameraMovement {
    const variant: Variant
    const prefabs: seq<Prefab>
    const numIterationsPerGrasp: int
    const framesPerIteration: int
    /** iterationCount - startIteration (data-collection variant) or totalIterations (older variant). */
    const declaredIterations: int
    const model: HandModel
    const cameraPlane: Vec3
    const cameraPlaneExtents: Vec3
    const objectPlane: Vec3
    const objectPlaneExtents: Vec3
    const samplingRangeHandInView: real
    const samplingRangeHandMaterial: real
    const samplingRangeObjectMaterial: real
    const scene: SceneObjects

    var iterationsCounter: int
    var objAndGraspPairs: seq<Pair>
    ghost var awake: bool
    /** An iteration has started normally and not yet ended. */
    ghost var inIteration: bool
    /** The grasp children that are active (the labeler reads them). */
    var activeGrasps: set<Pair>
    /** The pair being executed (`objInScene`, `graspToExecute`). */
    var current: Option<Pair>
    /** The end of the approach and the flexion-extension point, in the grasp's coordinates. */
    var approachTarget: Vec3
    var flexionTarget: Vec3
    var distance: real
    /** How far the camera has moved along its line of approach, from the sampled position. */
    var travelled: real
    var minimumJerkPoints: seq<(real, real)>
    /** The offsets planned at the start of the iteration. */
    ghost var plannedPoints: seq<(real, real)>
    var framesCounter: nat
    var psAngle: PsAngle
    var psStart: int
    var psDuration: int
    var feStart: int
    var isPositive: bool
    /** The rotations applied since the camera was aimed at the target. */
    var turns: seq<Turn>
    var savedHandPose: Pose
    var originalHandMaterial: Option<Material>
    var originalObjMaterial: Option<Material>

    /** The pairs as listed at setup. */
    ghost function AllPairs(): seq<Pair> {
      PairsFrom(GraspCounts(prefabs))
    }

    /** The material of the pooled instance of prefab o. */
    function MaterialOf(o: nat): Material
      requires o < |prefabs|
      reads scene
    {
      if o in scene.objectMaterials then scene.objectMaterials[o] else prefabs[o].material
    }

    /** The queue is the setup listing after the pops of iterations 0 .. k. */
    ghost predicate QueueInvariant()
      reads this`awake, this`objAndGraspPairs, this`iterationsCounter
    {
      awake && numIterationsPerGrasp != 0 ==>
        objAndGraspPairs == QueueAt(AllPairs(), numIterationsPerGrasp, if iterationsCounter < 0 then 0 else iterationsCounter)
    }

    /**
     * Which grasp is active: none before the first iteration; while the queue has a front,
     * the front's grasp during an iteration, and also between iterations unless the iteration
     * that just ended was the last one of its pair.
     */
    ghost predicate ActiveInvariant()
      reads this`awake, this`iterationsCounter, this`objAndGraspPairs, this`activeGrasps, this`inIteration
    {
      (awake && iterationsCounter == -1 ==> activeGrasps == {}) &&
      (awake && numIterationsPerGrasp != 0 && 0 <= iterationsCounter && |objAndGraspPairs| > 0 ==>
         activeGrasps == if inIteration || (iterationsCounter + 1) % numIterationsPerGrasp != 0
                         then {objAndGraspPairs[0]} else {})
    }

    /** During an iteration: the offsets left, the distance covered and the roll applied so far. */
    ghost predicate MotionInvariant()
      reads this`framesCounter, this`plannedPoints, this`minimumJerkPoints, this`travelled, this`turns,
            this`psStart, this`psDuration, this`psAngle, this`distance
    {
      Motion(plannedPoints, framesCounter, minimumJerkPoints, travelled, turns, psStart, psDuration, psAngle,
             distance, framesPerIteration)
    }

    /** Before setup no iteration has started, and every active grasp is one of the prefabs'. */
    ghost predicate SetupInvariant()
      reads this`iterationsCounter, this`awake, this`activeGrasps
    {
      -1 <= iterationsCounter &&
      (!awake ==> iterationsCounter == -1 && forall p :: p in activeGrasps ==> PairIn(prefabs, p))
    }

    /** Iterations run only after setup, and the frame counter is zero between them. */
    ghost predicate LifecycleInvariant()
      reads this`awake, this`inIteration, this`framesCounter
    {
      (!awake ==> !inIteration) && (!inIteration ==> framesCounter == 0)
    }

    /** During an iteration the front pair is the one being executed, and the approach is in progress. */
    ghost predicate IterationInvariant()
      reads this`inIteration, this`awake, this`iterationsCounter, this`objAndGraspPairs, this`current,
            this`framesCounter, this`plannedPoints, this`minimumJerkPoints, this`travelled, this`turns,
            this`psStart, this`psDuration, this`psAngle, this`distance
    {
      inIteration ==>
        awake && numIterationsPerGrasp != 0 && 0 <= iterationsCounter && |objAndGraspPairs| > 0 &&
        current == Some(objAndGraspPairs[0]) && PairIn(prefabs, objAndGraspPairs[0]) && MotionInvariant()
    }

    /**
     * Between selecting the pair p of an iteration and starting its approach: setup is done,
     * the queue is the one for this iteration, p is its front and p's grasp alone is active.
     */
    ghost predicate Selected(p: Pair)
      reads this`iterationsCounter, this`awake, this`inIteration, this`activeGrasps, this`objAndGraspPairs,
            this`framesCounter
    {
      awake && !inIteration && framesCounter == 0 && SetupInvariant() && QueueInvariant() && numIterationsPerGrasp != 0 && 0 <= iterationsCounter &&
      objAndGraspPairs == QueueAt(AllPairs(), numIterationsPerGrasp, iterationsCounter) &&
      |objAndGraspPairs| > 0 && p == objAndGraspPairs[0] && PairIn(prefabs, p) && activeGrasps == {p}
    }

    ghost predicate Valid()
      reads this`iterationsCounter, this`awake, this`inIteration, this`activeGrasps,
            this`objAndGraspPairs, this`framesCounter, this`current,
            this`plannedPoints, this`minimumJerkPoints, this`travelled, this`turns,
            this`psStart, this`psDuration, this`psAngle, this`distance
    {
      SetupInvariant() && LifecycleInvariant() && QueueInvariant() && ActiveInvariant() && IterationInvariant()
    }

    /**
     * The randomizer as configured in the editor, before setup. `editorActive` are the grasp
     * children left active in the prefabs; the hand starts at `handPose` with `handMaterial`.
     */
    constructor(variant: Variant, prefabs: seq<Prefab>, numIterationsPerGrasp: int, framesPerIteration: int,
                declaredIterations: int, handName: string, handPose: Pose, handMaterial: Material,
                cameraPlane: Vec3, cameraPlaneExtents: Vec3, objectPlane: Vec3, objectPlaneExtents: Vec3,
                samplingRangeHandInView: real, samplingRangeHandMaterial: real, samplingRangeObjectMaterial: real,
                editorActive: set<Pair>)
      requires forall p :: p in editorActive ==> PairIn(prefabs, p)
      ensures Valid() && !awake
      ensures this.variant == variant && this.prefabs == prefabs && this.numIterationsPerGrasp == numIterationsPerGrasp
      ensures this.framesPerIteration == framesPerIteration && this.declaredIterations == declaredIterations
      ensures this.model == HandModelOf(variant, handName)
      ensures this.cameraPlane == cameraPlane && this.cameraPlaneExtents == cameraPlaneExtents
      ensures this.objectPlane == objectPlane && this.objectPlaneExtents == objectPlaneExtents
      ensures this.samplingRangeHandInView == samplingRangeHandInView
      ensures this.samplingRangeHandMaterial == samplingRangeHandMaterial
      ensures this.samplingRangeObjectMaterial == samplingRangeObjectMaterial
      ensures fresh(scene) && scene.handPose == handPose && scene.handMaterial == handMaterial
      ensures scene.objectMaterials == map[] && scene.pooled == {} && scene.log == []
      ensures iterationsCounter == -1 && activeGrasps == editorActive
      ensures savedHandPose == Pose(Vec3(0.0, 0.0, 0.0), ZeroQuaternion)
      ensures originalHandMaterial == None && originalObjMaterial == None
    {
      this.variant := variant;
      this.prefabs := prefabs;
      this.numIterationsPerGrasp := numIterationsPerGrasp;
      this.framesPerIteration := framesPerIteration;
      this.declaredIterations := declaredIterations;
      this.model := HandModelOf(variant, handName);
      this.cameraPlane := cameraPlane;
      this.cameraPlaneExtents := cameraPlaneExtents;
      this.objectPlane := objectPlane;
      this.objectPlaneExtents := objectPlaneExtents;
      this.samplingRangeHandInView := samplingRangeHandInView;
      this.samplingRangeHandMaterial := samplingRangeHandMaterial;
      this.samplingRangeObjectMaterial := samplingRangeObjectMaterial;
      scene := new SceneObjects(handPose, handMaterial);
      iterationsCounter := -1;
      objAndGraspPairs := [];
      awake := false;
      inIteration := false;
      activeGrasps := editorActive;
      current := None;
      approachTarget := Vec3(0.0, 0.0, 0.0);
      flexionTarget := Vec3(0.0, 0.0, 0.0);
      distance := 0.0;
      travelled := 0.0;
      minimumJerkPoints := [];
      plannedPoints := [];
      framesCounter := 0;
      psAngle := Deg(0.0);
      psStart := 0;
      psDuration := 0;
      feStart := 0;
      isPositive := false;
      turns := [];
      savedHandPose := Pose(Vec3(0.0, 0.0, 0.0), ZeroQuaternion);
      originalHandMaterial := None;
      originalObjMaterial := None;
    }

    /**
     * `OnAwake`: lists the object-grasp pairs, deactivates every grasp child, checks that the
     * pairs times the iterations per pair equal the declared number of iterations, and checks
     * that the hand model has sampler ranges; each failed check logs a fault.
     */
    method OnAwake()
      requires Valid() && !awake
      modifies this`objAndGraspPairs, this`activeGrasps, this`awake, scene`log
      ensures Valid() && awake && !inIteration && iterationsCounter == -1
      ensures objAndGraspPairs == AllPairs() && activeGrasps == {}
      ensures scene.log == old(scene.log)
                + (if |AllPairs()| * numIterationsPerGrasp != declaredIterations
                   then [SetupCountMismatch(|AllPairs()|, numIterationsPerGrasp, declaredIterations)] else [])
                + (if !HandSupported(variant, model) then [HandModelUnsupported(model)] else [])
    {
      var pairs := ListPairs(prefabs);
      activeGrasps := activeGrasps - set p | p in pairs;
      assert activeGrasps == {} by {
        forall p | p in old(activeGrasps)
          ensures p in pairs
        {
        }
      }
      objAndGraspPairs := pairs;
      if |pairs| * numIterationsPerGrasp != declaredIterations {
        scene.log := scene.log + [SetupCountMismatch(|pairs|, numIterationsPerGrasp, declaredIterations)];
      }
      if !HandSupported(variant, model) {
        scene.log := scene.log + [HandModelUnsupported(model)];
      }
      awake := true;
    }

    function CameraAt(d: StartDraws, g: nat): Vec3 {
      CameraPlacement(cameraPlane, cameraPlaneExtents, d.cameraDraws(g).0, d.cameraDraws(g).1)
    }

    function ObjectAt(d: StartDraws, g: nat, p: Pair): Vec3
      requires PairIn(prefabs, p)
    {
      var prefab := prefabs[p.0];
      ObjectPlacement(variant, objectPlane, objectPlaneExtents, InstanceName(prefab), prefab.grasps[p.1].name,
                      prefab.halfHeight, d.placementDraws(g).0, d.placementDraws(g).1)
    }

    function RotationAt(d: StartDraws, g: nat, p: Pair): Rotation
      requires PairIn(prefabs, p)
    {
      ObjectRotation(prefabs[p.0].grasps[p.1].name, d.rotationDraws(g).0, d.rotationDraws(g).1)
    }

    /**
     * `randomHandTransform`: when the draw is within the in-view range, the current pose is
     * saved and the hand gets the randomized pose (an unsupported model logs a fault and gets
     * the neutral pose); otherwise nothing changes.
     */
    method RandomHandTransform(apply: Unit, draws: HandDraws)
      modifies scene`handPose, scene`log, this`savedHandPose
      ensures apply <= samplingRangeHandInView ==>
                savedHandPose == old(scene.handPose) &&
                scene.handPose == HandTransform(variant, model, old(scene.handPose), draws).0
      ensures apply > samplingRangeHandInView ==>
                savedHandPose == old(savedHandPose) && scene.handPose == old(scene.handPose)
      ensures scene.log == old(scene.log) + HandPoseFaults(apply)
    {
      if apply <= samplingRangeHandInView {
        savedHandPose := scene.handPose;
        var r := HandTransform(variant, model, scene.handPose, draws);
        scene.handPose := r.0;
        if r.1 {
          scene.log := scene.log + [HandModelUnsupported(model)];
        }
      }
    }

    /** The fault `randomHandTransform` logs: an unsupported model when the pose is randomized. */
    function HandPoseFaults(apply: Unit): seq<Fault>
    {
      if apply <= samplingRangeHandInView && !HandSupported(variant, model) then [HandModelUnsupported(model)] else []
    }

    /**
     * `randomHandMaterial`: when the draw is within range, a supported model saves its
     * material and gets the drawn one; an unsupported model logs a fault instead.
     */
    method RandomHandMaterial(apply: Unit, m: Material)
      modifies scene`handMaterial, scene`log, this`originalHandMaterial
      ensures apply <= samplingRangeHandMaterial && HandSupported(variant, model) ==>
                originalHandMaterial == Some(old(scene.handMaterial)) && scene.handMaterial == m
      ensures !(apply <= samplingRangeHandMaterial && HandSupported(variant, model)) ==>
                originalHandMaterial == old(originalHandMaterial) && scene.handMaterial == old(scene.handMaterial)
      ensures scene.log == old(scene.log) + HandMaterialFaults(apply)
    {
      if apply <= samplingRangeHandMaterial {
        if HandSupported(variant, model) {
          originalHandMaterial := Some(scene.handMaterial);
          scene.handMaterial := m;
        } else {
          scene.log := scene.log + [HandModelUnsupported(model)];
        }
      }
    }

    /** The fault `randomHandMaterial` logs: an unsupported model when the material is randomized. */
    function HandMaterialFaults(apply: Unit): seq<Fault>
    {
      if apply <= samplingRangeHandMaterial && !HandSupported(variant, model) then [HandModelUnsupported(model)] else []
    }

    /**
     * `randomObjectMaterial`: when the draw is within range, the instance's material is
     * replaced and the material it had is returned, for the randomizer to save.
     */
    method RandomObjectMaterial(o: nat, apply: Unit, m: Material) returns (saved: Option<Material>)
      requires o < |prefabs|
      modifies scene`objectMaterials
      ensures apply <= samplingRangeObjectMaterial ==>
                saved == Some(old(MaterialOf(o))) && scene.objectMaterials == old(scene.objectMaterials)[o := m]
      ensures apply > samplingRangeObjectMaterial ==>
                saved == None && scene.objectMaterials == old(scene.objectMaterials)
    {
      saved := None;
      if apply <= samplingRangeObjectMaterial {
        saved := Some(MaterialOf(o));
        scene.objectMaterials := scene.objectMaterials[o := m];
      }
    }

    /**
     * The hand's randomization at the start of an iteration, from pose, saved pose, material and
     * saved material before to the same after: `randomHandTransform` then `randomHandMaterial`.
     */
    ghost predicate HandRandomized(d: StartDraws, pose0: Pose, saved0: Pose, material0: Material, original0: Option<Material>,
                                   pose: Pose, saved: Pose, material: Material, original: Option<Material>)
    {
      (d.handApply <= samplingRangeHandInView ==>
         saved == pose0 && pose == HandTransform(variant, model, pose0, d.hand).0) &&
      (d.handApply > samplingRangeHandInView ==> saved == saved0 && pose == pose0) &&
      (d.handMaterialApply <= samplingRangeHandMaterial && HandSupported(variant, model) ==>
         original == Some(material0) && material == d.handMaterial) &&
      (!(d.handMaterialApply <= samplingRangeHandMaterial && HandSupported(variant, model)) ==>
         original == original0 && material == material0)
    }

    /**
     * The pair selection of `OnIterationStart`: k is incremented; with n == 0 the remainder
     * throws; the queue front is popped when k % n == 0 and k != 0; an empty queue throws;
     * the front pair's grasp is activated on iteration 0 and whenever a pop happened.
     */
    method NextPair() returns (outcome: Outcome, p: Pair)
      requires Valid() && awake && !inIteration
      modifies this`iterationsCounter, this`objAndGraspPairs, this`activeGrasps
      ensures iterationsCounter == old(iterationsCounter) + 1
      ensures outcome == Threw(DivideByZero) <==> numIterationsPerGrasp == 0
      ensures numIterationsPerGrasp != 0 ==>
                (outcome == Completed <==> |QueueAt(AllPairs(), numIterationsPerGrasp, iterationsCounter)| > 0)
      ensures outcome.Threw? ==> Valid() && outcome.exception in {DivideByZero, ArgumentOutOfRange}
      ensures outcome == Completed ==>
                SetupInvariant() && QueueInvariant() &&
                objAndGraspPairs == QueueAt(AllPairs(), numIterationsPerGrasp, iterationsCounter) &&
                |objAndGraspPairs| > 0 && p == objAndGraspPairs[0] && PairIn(prefabs, p) && activeGrasps == {p}
    {
      var n := numIterationsPerGrasp;
      var k := iterationsCounter + 1;
      p := (0, 0);
      if n == 0 {
        iterationsCounter := k;
        return Threw(DivideByZero), p;
      }
      var queue := objAndGraspPairs;
      var newBatch := k % n == 0 && k != 0;
      if newBatch {
        if |queue| == 0 {
          iterationsCounter := k;
          return Threw(ArgumentOutOfRange), p;
        }
        queue := queue[1..];
      }
      if |queue| == 0 {
        iterationsCounter, objAndGraspPairs := k, queue;
        return Threw(ArgumentOutOfRange), p;
      }
      p := queue[0];
      QueueAtElements(AllPairs(), n, k, p);
      PairsFromMembership(GraspCounts(prefabs), p);
      var active := if newBatch || k == 0 then activeGrasps + {p} else activeGrasps;
      assert active == {p};
      iterationsCounter, objAndGraspPairs, activeGrasps := k, queue, active;
      outcome := Completed;
    }

    /**
     * The first half of `OnIterationStart`: the camera is placed and the hand randomized,
     * then the next pair is selected.
     */
    method BeginIteration(d: StartDraws) returns (outcome: Outcome, p: Pair)
      requires Valid() && awake && !inIteration
      modifies scene`cameraPosition, scene`handPose, scene`handMaterial, scene`log, this`savedHandPose,
               this`originalHandMaterial, this`iterationsCounter, this`objAndGraspPairs, this`activeGrasps
      ensures scene.cameraPosition == CameraAt(d, 0)
      ensures HandRandomized(d, old(scene.handPose), old(savedHandPose), old(scene.handMaterial), old(originalHandMaterial),
                             scene.handPose, savedHandPose, scene.handMaterial, originalHandMaterial)
      ensures scene.log == old(scene.log) + HandPoseFaults(d.handApply) + HandMaterialFaults(d.handMaterialApply)
      ensures iterationsCounter == old(iterationsCounter) + 1
      ensures outcome == Threw(DivideByZero) <==> numIterationsPerGrasp == 0
      ensures numIterationsPerGrasp != 0 ==>
                (outcome == Completed <==> |QueueAt(AllPairs(), numIterationsPerGrasp, iterationsCounter)| > 0)
      ensures outcome.Threw? ==> Valid() && outcome.exception in {DivideByZero, ArgumentOutOfRange}
      ensures outcome == Completed ==> Selected(p)
    {
      scene.cameraPosition := CameraAt(d, 0);
      RandomHandTransform(d.handApply, d.hand);
      RandomHandMaterial(d.handMaterialApply, d.handMaterial);
      outcome, p := NextPair();
    }

    /** The retry search for pair p with the draws of an iteration. */
    function SearchFor(p: Pair, d: StartDraws): SearchResult
      requires PairIn(prefabs, p)
    {
      RunSearch(d.cast, InstanceName(prefabs[p.0]), prefabs[p.0].grasps[p.1].name)
    }

    /**
     * The approach point the search leaves behind: that of the attempt that ended it, or the
     * engine's point after a search that gave up.
     */
    function ApproachPoint(p: Pair, d: StartDraws): Vec3
      requires PairIn(prefabs, p)
    {
      var r := SearchFor(p, d);
      if r.end == GaveUp then d.giveUpTarget
      else AttemptTarget(variant, prefabs[p.0].grasps[p.1], d.colliderDraws, r.attempts)
    }

    /** The faults the search logs: one per missed linecast, and one more when it gives up. */
    function SearchFaults(p: Pair, d: StartDraws): seq<Fault>
      requires PairIn(prefabs, p)
    {
      var r := SearchFor(p, d);
      Repeat(NoCollision, r.noHits) + (if r.end == GaveUp then [NoFeasiblePose] else [])
    }

    /** The search throws exactly when it ends at a hit on a collider without grandparent. */
    function SearchOutcome(p: Pair, d: StartDraws): Outcome
      requires PairIn(prefabs, p)
    {
      if SearchFor(p, d).end == Unparented then Threw(NullReference) else Completed
    }

    /** Camera and object are where the search's last resample put them. */
    ghost predicate PlacedBySearch(p: Pair, d: StartDraws)
      requires PairIn(prefabs, p)
      reads scene`cameraPosition, scene`objectPosition, scene`objectRotation
    {
      var g := SearchFor(p, d).resamples;
      scene.cameraPosition == CameraAt(d, g) && scene.objectPosition == ObjectAt(d, g, p) &&
      scene.objectRotation == RotationAt(d, g, p)
    }

    /**
     * `randomObjectMaterial` on the instance of prefab o, from its material, the materials
     * map and the saved material before to the map and the saved material after.
     */
    ghost predicate ObjectMaterialRandomized(d: StartDraws, o: nat, material0: Material, materials0: map<nat, Material>,
                                             saved0: Option<Material>, materials: map<nat, Material>, saved: Option<Material>)
    {
      (d.objMaterialApply <= samplingRangeObjectMaterial ==>
         saved == Some(material0) && materials == materials0[o := d.objMaterial]) &&
      (d.objMaterialApply > samplingRangeObjectMaterial ==> saved == saved0 && materials == materials0)
    }

    /**
     * The approach planned for pair p towards `target`: the two target points, the scaled
     * pronation-supination angle and its window, the flexion-extension start, the camera not
     * yet moved nor turned, and a minimum-jerk trajectory over the distance.
     */
    ghost predicate Planned(p: Pair, target: Vec3, d: StartDraws)
      requires PairIn(prefabs, p)
      reads this`approachTarget, this`flexionTarget, this`psAngle, this`psStart, this`psDuration, this`feStart,
            this`distance, this`turns, this`travelled, this`minimumJerkPoints
    {
      var grasp := prefabs[p.0].grasps[p.1];
      var ends := Extremities(target, grasp.meshHalfHeight);
      Targets(approachTarget, flexionTarget) == ChooseTargets(ends.0, ends.1, d.targetDraw) &&
      psAngle == ScalePs(NormalisedPs(variant, grasp.name, InstanceName(prefabs[p.0]), d.rawPs), d.psShare) &&
      psStart == d.psStart && psDuration == d.psDuration && feStart == d.feStart && distance == d.distance &&
      turns == [] && travelled == -ReferenceToCameraOffset &&
      (framesPerIteration <= 0 ==> minimumJerkPoints == []) &&
      (framesPerIteration > 0 ==> IsTrajectory(minimumJerkPoints, 0.0, 0.0, 0.0, distance, framesPerIteration))
    }

    /**
     * The retry loop of `OnIterationStart` and what it leaves behind: the faults it logs and
     * the camera and object placements of its last resample. Returns whether it threw and,
     * when it did not, the approach point.
     */
    method PlaceForApproach(p: Pair, d: StartDraws) returns (outcome: Outcome, target: Vec3)
      requires PairIn(prefabs, p)
      modifies scene`log, scene`cameraPosition, scene`objectPosition, scene`objectRotation
      ensures PlacedBySearch(p, d) && scene.log == old(scene.log) + SearchFaults(p, d)
      ensures outcome == SearchOutcome(p, d)
      ensures outcome == Completed ==> target == ApproachPoint(p, d)
    {
      var grasp := prefabs[p.0].grasps[p.1];
      var i, g, h, end := SearchApproach(d.cast, InstanceName(prefabs[p.0]), grasp.name);
      // each attempt aims at its own point; the one that counts is the attempt that ended the loop
      target := if end == GaveUp then d.giveUpTarget else AttemptTarget(variant, grasp, d.colliderDraws, i);
      scene.log := scene.log + Repeat(NoCollision, h) + (if end == GaveUp then [NoFeasiblePose] else []);
      scene.cameraPosition := CameraAt(d, g);
      scene.objectPosition := ObjectAt(d, g, p);
      scene.objectRotation := RotationAt(d, g, p);
      outcome := if end == Unparented then Threw(NullReference) else Completed;
    }

    /**
     * The scene part of the second half of `OnIterationStart`, for the selected pair p: its
     * instance is taken from the pool and possibly re-textured, and the retry search places
     * camera and object. Returns whether the search threw, the approach point and the object
     * material to save.
     */
    method StageScene(p: Pair, d: StartDraws) returns (outcome: Outcome, target: Vec3, saved: Option<Material>)
      requires PairIn(prefabs, p)
      modifies scene`pooled, scene`objectMaterials, scene`log, scene`cameraPosition, scene`objectPosition,
               scene`objectRotation
      ensures scene.pooled == old(scene.pooled) + {p.0}
      ensures PlacedBySearch(p, d) && scene.log == old(scene.log) + SearchFaults(p, d)
      ensures outcome == SearchOutcome(p, d)
      ensures outcome == Completed ==> target == ApproachPoint(p, d)
      ensures ObjectMaterialRandomized(d, p.0, old(MaterialOf(p.0)), old(scene.objectMaterials), None,
                                       scene.objectMaterials, saved)
    {
      scene.pooled := scene.pooled + {p.0};
      saved := RandomObjectMaterial(p.0, d.objMaterialApply, d.objMaterial);
      outcome, target := PlaceForApproach(p, d);
    }

    /**
     * The aiming part of the end of `OnIterationStart`: the pronation-supination angle and
     * its window, the two target points and the flexion-extension start.
     */
    method AimApproach(grasp: GraspChild, objName: string, target: Vec3, d: StartDraws)
      modifies this`psAngle, this`psStart, this`psDuration, this`approachTarget, this`flexionTarget, this`feStart
      ensures psAngle == ScalePs(NormalisedPs(variant, grasp.name, objName, d.rawPs), d.psShare)
      ensures psStart == d.psStart && psDuration == d.psDuration && feStart == d.feStart
      ensures var ends := Extremities(target, grasp.meshHalfHeight);
              Targets(approachTarget, flexionTarget) == ChooseTargets(ends.0, ends.1, d.targetDraw)
    {
      psAngle := ScalePs(NormalisedPs(variant, grasp.name, objName, d.rawPs), d.psShare);
      psStart := d.psStart;
      psDuration := d.psDuration;
      var ends := Extremities(target, grasp.meshHalfHeight);
      var t := ChooseTargets(ends.0, ends.1, d.targetDraw);
      approachTarget := t.approach;
      flexionTarget := t.flexion;
      feStart := d.feStart;
    }

    /**
     * The motion part of the end of `OnIterationStart`: the offsets of a minimum-jerk approach
     * over `dist`, the camera starting the reference-to-camera offset behind, unturned.
     */
    method StartMotion(dist: real)
      requires framesCounter == 0
      modifies this`distance, this`travelled, this`turns, this`minimumJerkPoints, this`plannedPoints
      ensures MotionInvariant() && distance == dist
      ensures travelled == -ReferenceToCameraOffset && turns == []
      ensures framesPerIteration <= 0 ==> minimumJerkPoints == []
      ensures framesPerIteration > 0 ==> IsTrajectory(minimumJerkPoints, 0.0, 0.0, 0.0, distance, framesPerIteration)
    {
      distance := dist;
      travelled := -ReferenceToCameraOffset;
      turns := [];
      var points := Trajectory(0.0, 0.0, 0.0, dist, framesPerIteration);
      minimumJerkPoints := points;
      plannedPoints := points;
      MotionStart(points, psStart, psDuration, psAngle, dist, framesPerIteration);
    }

    /**
     * The end of `OnIterationStart`, once the approach point is known: the
     * pronation-supination angle, the two target points, the flexion-extension start, and
     * the offsets of the approach, which starts the reference-to-camera offset behind the camera.
     */
    method PlanApproach(p: Pair, target: Vec3, d: StartDraws)
      requires PairIn(prefabs, p) && framesCounter == 0
      modifies this`psAngle, this`psStart, this`psDuration, this`approachTarget, this`flexionTarget,
               this`feStart, this`distance, this`travelled, this`turns, this`minimumJerkPoints,
               this`plannedPoints
      ensures MotionInvariant() && Planned(p, target, d)
    {
      AimApproach(prefabs[p.0].grasps[p.1], InstanceName(prefabs[p.0]), target, d);
      StartMotion(d.distance);
    }

    /**
     * The end of `OnIterationStart`: the approach towards `target` is planned and the
     * iteration of pair p begins.
     */
    method StartApproach(p: Pair, target: Vec3, d: StartDraws)
      requires Selected(p)
      modifies this`psAngle, this`psStart, this`psDuration, this`approachTarget, this`flexionTarget,
               this`feStart, this`distance, this`travelled, this`turns, this`minimumJerkPoints,
               this`plannedPoints, this`framesCounter, this`current, this`inIteration
      ensures Valid() && inIteration && framesCounter == 0 && current == Some(p)
      ensures Planned(p, target, d)
    {
      PlanApproach(p, target, d);
      EnterIteration(p);
    }

    /** The bookkeeping of the end of `OnIterationStart`: pair p becomes the one being executed. */
    method EnterIteration(p: Pair)
      requires Selected(p) && MotionInvariant()
      modifies this`current, this`inIteration, this`framesCounter
      ensures Valid() && inIteration && framesCounter == 0 && current == Some(p)
    {
      current, inIteration, framesCounter := Some(p), true, 0;
    }

    /**
     * The second half of `OnIterationStart`, once pair p is selected: the scene is staged and,
     * unless the search threw, the approach towards the search's approach point begins.
     */
    method RunIteration(p: Pair, d: StartDraws) returns (outcome: Outcome)
      requires Selected(p)
      modifies scene`pooled, scene`objectMaterials, scene`log, scene`cameraPosition, scene`objectPosition,
               scene`objectRotation,
               this`psAngle, this`psStart, this`psDuration, this`approachTarget, this`flexionTarget,
               this`feStart, this`distance, this`travelled, this`turns, this`minimumJerkPoints,
               this`plannedPoints, this`framesCounter, this`current, this`inIteration, this`originalObjMaterial
      ensures outcome == SearchOutcome(p, d)
      ensures scene.pooled == old(scene.pooled) + {p.0} && PlacedBySearch(p, d)
      ensures scene.log == old(scene.log) + SearchFaults(p, d)
      ensures ObjectMaterialRandomized(d, p.0, old(MaterialOf(p.0)), old(scene.objectMaterials), old(originalObjMaterial),
                                       scene.objectMaterials, originalObjMaterial)
      ensures outcome == Completed ==>
                Valid() && inIteration && framesCounter == 0 && current == Some(p) && Planned(p, ApproachPoint(p, d), d)
      ensures outcome.Threw? ==> Selected(p)
    {
      var target, saved;
      outcome, target, saved := StageScene(p, d);
      if saved.Some? {
        originalObjMaterial := saved;
      }
      if outcome.Completed? {
        StartApproach(p, target, d);
      }
    }

    /**
     * `OnIterationStart`. The camera is placed and the hand randomized; the next pair is
     * selected (n == 0 and an exhausted queue throw); the pair's instance is taken from the
     * pool and possibly re-textured; the retry search places camera and object (a hit on a
     * collider without grandparent throws); then the approach is planned. What the two halves
     * do to the hand, the scene and the approach is stated on `BeginIteration` and
     * `RunIteration`; here, the lifecycle and the queue.
     */
    method OnIterationStart(d: StartDraws) returns (outcome: Outcome, p: Pair)
      requires Valid() && awake && !inIteration
      modifies this, scene
      ensures awake && (outcome != Threw(NullReference) ==> Valid())
      ensures iterationsCounter == old(iterationsCounter) + 1
      ensures outcome == Threw(DivideByZero) <==> numIterationsPerGrasp == 0
      ensures numIterationsPerGrasp != 0 ==>
                (outcome == Threw(ArgumentOutOfRange) <==> |QueueAt(AllPairs(), numIterationsPerGrasp, iterationsCounter)| == 0)
      ensures outcome == Threw(DivideByZero) || outcome == Threw(ArgumentOutOfRange) ==>
                !inIteration && scene.cameraPosition == CameraAt(d, 0) &&
                scene.log == old(scene.log) + HandPoseFaults(d.handApply) + HandMaterialFaults(d.handMaterialApply)
      ensures outcome == Threw(NullReference) ==> Selected(p) && SearchFor(p, d).end == Unparented
      ensures outcome == Completed ==>
                inIteration && framesCounter == 0 &&
                objAndGraspPairs == QueueAt(AllPairs(), numIterationsPerGrasp, iterationsCounter) &&
                p == objAndGraspPairs[0] && current == Some(p) && activeGrasps == {p} &&
                PairIn(prefabs, p) && SearchFor(p, d).end != Unparented
    {
      outcome, p := BeginIteration(d);
      if outcome.Completed? {
        outcome := RunIteration(p, d);
      }
    }

    /** One frame of `OnUpdate` once an offset is left: the camera's moves of that frame. */
    method AdvanceFrame(fe: real)
      requires MotionInvariant() && |minimumJerkPoints| > 0
      modifies this`minimumJerkPoints, this`travelled, this`framesCounter, this`turns, this`isPositive
      ensures MotionInvariant()
      ensures minimumJerkPoints == old(minimumJerkPoints[1..]) &&
              travelled == old(travelled) + old(minimumJerkPoints[0].1) &&
              framesCounter == old(framesCounter) + 1 &&
              turns == old(turns) + FrameRoll(framesCounter, psStart, psDuration, psAngle)
                       + FramePitch(framesCounter, feStart, old(isPositive), fe).0 &&
              isPositive == FramePitch(framesCounter, feStart, old(isPositive), fe).1
    {
      var c := framesCounter + 1;
      var pitch := FramePitch(c, feStart, isPositive, fe);
      MotionAdvance(plannedPoints, framesCounter, minimumJerkPoints, travelled, turns, psStart, psDuration,
                    psAngle, distance, framesPerIteration, pitch.0);
      travelled, minimumJerkPoints, framesCounter, turns, isPositive :=
        travelled + minimumJerkPoints[0].1, minimumJerkPoints[1..], c,
        turns + FrameRoll(c, psStart, psDuration, psAngle) + pitch.0, pitch.1;
    }

    /**
     * `OnUpdate` with the signed flexion-extension angle `fe` the engine measures on this
     * frame: the front offset is consumed and the camera advanced by its second component;
     * the frame counter is incremented; inside the pronation-supination window the camera
     * rolls by the angle's share; from the flexion-extension start on, the sign lock is applied
     * and the camera pitches by a tenth of the locked angle. An empty offset list throws.
     */
    method OnUpdate(fe: real) returns (outcome: Outcome)
      requires Valid() && inIteration
      modifies this`minimumJerkPoints, this`travelled, this`framesCounter, this`turns, this`isPositive
      ensures Valid()
      ensures old(|minimumJerkPoints|) == 0 ==>
                outcome == Threw(ArgumentOutOfRange) && framesCounter == old(framesCounter) && turns == old(turns) &&
                travelled == old(travelled) && minimumJerkPoints == old(minimumJerkPoints) && isPositive == old(isPositive)
      ensures old(|minimumJerkPoints|) > 0 ==>
                outcome == Completed &&
                minimumJerkPoints == old(minimumJerkPoints[1..]) &&
                travelled == old(travelled) + old(minimumJerkPoints[0].1) &&
                framesCounter == old(framesCounter) + 1 &&
                turns == old(turns) + FrameRoll(framesCounter, psStart, psDuration, psAngle)
                         + FramePitch(framesCounter, feStart, old(isPositive), fe).0 &&
                isPositive == FramePitch(framesCounter, feStart, old(isPositive), fe).1
      ensures RollSum(turns) == PsTotal(framesCounter, psStart, psDuration, psAngle)
      ensures framesPerIteration > 0 && framesCounter == framesPerIteration ==>
                travelled == distance - ReferenceToCameraOffset
    {
      if |minimumJerkPoints| == 0 {
        outcome := Threw(ArgumentOutOfRange);
      } else {
        AdvanceFrame(fe);
        outcome := Completed;
      }
      if framesPerIteration > 0 && framesCounter == framesPerIteration {
        MotionArrives(plannedPoints, framesCounter, minimumJerkPoints, travelled, turns, psStart, psDuration,
                      psAngle, distance, framesPerIteration);
      }
    }

    /**
     * What the restores of `OnIterationEnd` leave for the instance of prefab o, given the
     * object materials, hand material, log and saved materials before them: the pool is
     * reset, and the object's and the hand's materials are put back when saved (a hand model
     * without material support logs a fault and keeps the saved material).
     */
    ghost predicate Restored(o: nat, materials0: map<nat, Material>, hand0: Material, log0: seq<Fault>,
                             savedObj0: Option<Material>, savedHand0: Option<Material>)
      reads scene`pooled, scene`objectMaterials, scene`handMaterial, scene`log,
            this`originalObjMaterial, this`originalHandMaterial
    {
      scene.pooled == {} && originalObjMaterial == None &&
      scene.objectMaterials == (if savedObj0.Some? then materials0[o := savedObj0.value] else materials0) &&
      (savedHand0.Some? && HandSupported(variant, model) ==>
         scene.handMaterial == savedHand0.value && originalHandMaterial == None && scene.log == log0) &&
      (savedHand0.Some? && !HandSupported(variant, model) ==>
         scene.handMaterial == hand0 && originalHandMaterial == savedHand0 &&
         scene.log == log0 + [HandModelUnsupported(model)]) &&
      (savedHand0.None? ==> scene.handMaterial == hand0 && originalHandMaterial == None && scene.log == log0)
    }

    /** The restores of `OnIterationEnd` for the instance of prefab o. */
    method RestoreScene(o: nat)
      modifies scene`pooled, scene`objectMaterials, scene`handMaterial, scene`log,
               this`originalObjMaterial, this`originalHandMaterial
      ensures Restored(o, old(scene.objectMaterials), old(scene.handMaterial), old(scene.log),
                       old(originalObjMaterial), old(originalHandMaterial))
    {
      scene.pooled := {};
      if originalObjMaterial.Some? {
        scene.objectMaterials := scene.objectMaterials[o := originalObjMaterial.value];
        originalObjMaterial := None;
      }
      if originalHandMaterial.Some? {
        if HandSupported(variant, model) {
          scene.handMaterial := originalHandMaterial.value;
          originalHandMaterial := None;
        } else {
          scene.log := scene.log + [HandModelUnsupported(model)];
        }
      }
    }

    /**
     * The schedule part of `OnIterationEnd`: the grasp is deactivated after the last
     * iteration of its pair, and the frame counter is reset.
     */
    method EndSchedule()
      requires Valid() && inIteration
      modifies this`activeGrasps, this`framesCounter, this`inIteration
      ensures Valid() && !inIteration && framesCounter == 0
      ensures var last := (iterationsCounter + 1) % numIterationsPerGrasp == 0;
              activeGrasps == (if last then old(activeGrasps) - {current.value} else old(activeGrasps)) &&
              |objAndGraspPairs| > 0 &&
              activeGrasps == (if last then {} else {objAndGraspPairs[0]})
    {
      if (iterationsCounter + 1) % numIterationsPerGrasp == 0 {
        activeGrasps := activeGrasps - {current.value};
      }
      framesCounter := 0;
      inIteration := false;
    }

    /**
     * `OnIterationEnd`: the grasp is deactivated after the last iteration of its pair, the
     * scene is restored, the frame counter is reset and the hand goes back to the last saved
     * pose.
     */
    method OnIterationEnd()
      requires Valid() && inIteration
      modifies this`activeGrasps, this`framesCounter, this`inIteration, this`originalObjMaterial,
               this`originalHandMaterial, scene`pooled, scene`objectMaterials, scene`handMaterial,
               scene`log, scene`handPose
      ensures Valid() && !inIteration && framesCounter == 0
      ensures var last := (iterationsCounter + 1) % numIterationsPerGrasp == 0;
              activeGrasps == (if last then old(activeGrasps) - {old(current).value} else old(activeGrasps)) &&
              |objAndGraspPairs| > 0 &&
              activeGrasps == (if last then {} else {objAndGraspPairs[0]})
      ensures scene.handPose == old(savedHandPose)
      ensures Restored(old(current).value.0, old(scene.objectMaterials), old(scene.handMaterial), old(scene.log),
                       old(originalObjMaterial), old(originalHandMaterial))
    {
      EndSchedule();
      RestoreScene(current.value.0);
      scene.handPose := savedHandPose;
    }
  }
}
