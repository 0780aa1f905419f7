/**
 * `GraspTypeLabeler.OnBeginRendering`, in its two variants: it finds the one object in view
 * among the children of "Foreground Object", the one active grasp child of that object, and
 * builds the grasp-type annotation from their names.
 *
 * The scene is given as values: the cached instances with their positions, material names
 * and grasp children. Reporting the annotation is the `reported` flag of the result, and the
 * stop request that comes with a logged error is the `stopRequested` flag.
 */
module GraspLabeler {
  import opened Wrappers
  import opened Scene
  import opened GraspNames

  /** A child of the object's "textured" child: a grasp, active or not. */
  datatype GraspChildState = GraspChildState(name: string, active: bool)

  /** A pooled instance under "Foreground Object": its name, position, material name and grasp children. */
  datatype CachedObject = CachedObject(name: string, position: Vec3, material: string, grasps: seq<GraspChildState>)

  /**
   * The position filter for the object in view: an instance parked by the pool stands at
   * x = 10000, and one never placed at the origin plane.
   */
  predicate InScene(o: CachedObject) {
    o.position.x != 10000.0 && o.position.y != 0.0 && o.position.z != 0.0
  }

  // ---------------------------------------------------------------------------
  // The two counting loops

  /** How many of the flags are set. */
  function CountSet(flags: seq<bool>): nat
    decreases |flags|
  {
    if |flags| == 0 then 0
    else CountSet(flags[..|flags| - 1]) + (if flags[|flags| - 1] then 1 else 0)
  }

  /** The index of the last set flag, or -1 when none is set. */
  function LastSet(flags: seq<bool>): int
    decreases |flags|
  {
    if |flags| == 0 then -1
    else if flags[|flags| - 1] then |flags| - 1
    else LastSet(flags[..|flags| - 1])
  }

  /**
   * The last set flag is set and nothing after it is; there is none exactly when no flag is
   * set.
   */
  lemma {:induction false} LastSetIsLast(flags: seq<bool>)
    ensures -1 <= LastSet(flags) < |flags|
    ensures LastSet(flags) >= 0 ==> flags[LastSet(flags)]
    ensures forall j :: LastSet(flags) < j < |flags| ==> !flags[j]
    ensures LastSet(flags) == -1 <==> CountSet(flags) == 0
    decreases |flags|
  {
    if |flags| > 0 {
      LastSetIsLast(flags[..|flags| - 1]);
    }
  }

  /** When exactly one flag is set, the last set flag is that one. */
  lemma {:induction false} SingleSetIsLast(flags: seq<bool>)
    requires CountSet(flags) == 1
    ensures 0 <= LastSet(flags) < |flags| && flags[LastSet(flags)]
    ensures forall j :: 0 <= j < |flags| && flags[j] ==> j == LastSet(flags)
    decreases |flags|
  {
    var init := flags[..|flags| - 1];
    LastSetIsLast(flags);
    LastSetIsLast(init);
    if !flags[|flags| - 1] {
      SingleSetIsLast(init);
    } else {
      assert forall j :: 0 <= j < |init| ==> !init[j];
    }
  }

  /**
   * One counting loop of `OnBeginRendering`: it goes through the children in order and, for
   * each one that passes the test, increments the count and remembers its index.
   */
  method CountAndLast(flags: seq<bool>) returns (count: nat, last: int)
    ensures count == CountSet(flags) && last == LastSet(flags)
  {
    count, last := 0, -1;
    var i := 0;
    while i < |flags|
      invariant 0 <= i <= |flags|
      invariant count == CountSet(flags[..i]) && last == LastSet(flags[..i])
    {
      assert flags[..i + 1][..i] == flags[..i];
      if flags[i] {
        count, last := count + 1, i;
      }
      i := i + 1;
    }
    assert flags[..|flags|] == flags;
  }

  function InSceneFlags(objs: seq<CachedObject>): seq<bool> {
    seq(|objs|, i requires 0 <= i < |objs| => InScene(objs[i]))
  }

  function ActiveFlags(grasps: seq<GraspChildState>): seq<bool> {
    seq(|grasps|, i requires 0 <= i < |grasps| => grasps[i].active)
  }

  // ---------------------------------------------------------------------------
  // The annotation

  /** The exceptions `OnBeginRendering` can throw. */
  datatype LabelerError =
    | ForegroundObjectMissing          // no "Foreground Object" child in the scenario
    | ObjectsInScene(count: nat)       // not exactly one instance passed the position filter
    | GraspChildOutOfRange             // no active grasp child: `GetChild(-1)`
    | UnknownInstance(key: string)     // `instance2object` has no such key
    | UnknownGraspType(key: string)    // `graspType2preshape` has no such key

  /** The annotation: the data-collection labeler's ten fields, or the older labeler's six. */
  datatype GraspLabel =
    | MetaValues(objectName: string, instanceName: string, textureName: string, graspTypeName: string,
                 preshapeName: string, viewTypeName: string, objectSide: string,
                 noPronationSupination: bool, upsideDown: bool, samplingUpsideDown: bool)
    | Value(objectName: string, instanceName: string, textureName: string, graspTypeName: string,
            preshapeName: string, viewTypeName: string)

  /**
   * The outcome of one call: nothing (a frame that is not captured, data-collection labeler),
   * an exception, or an annotation, reported or not. `stopRequested` is set when the number of
   * active grasps was not one (an error is logged and the editor asked to stop, but the call
   * goes on).
   */
  datatype Rendering =
    | Skipped
    | Threw(error: LabelerError, stopRequested: bool)
    | Labelled(annotation: GraspLabel, reported: bool, stopRequested: bool)

  /** The annotation of the object in view and its grasp child, once the lookups have succeeded. */
  function LabelOf(labeler: Labeler, obj: CachedObject, grasp: string, viewType: string): Result<GraspLabel, LabelerError> {
    var instance := InstanceOf(obj.name);
    var texture := TextureName(labeler, obj.material);
    match labeler
    case DataCollectionLabeler =>
      var parsed := ParseGraspName(grasp);
      if instance !in InstanceToObject then Err(UnknownInstance(instance))
      else if parsed.graspType !in GraspTypeToPreshape then Err(UnknownGraspType(parsed.graspType))
      else Ok(MetaValues(InstanceToObject[instance], instance, texture, parsed.graspType,
                         GraspTypeToPreshape[parsed.graspType], viewType, SideName(parsed.side),
                         parsed.noPronationSupination, parsed.upsideDown, parsed.samplingUpsideDown))
    case LegacyLabeler =>
      var graspType := StripFlagTags(grasp);
      if instance !in InstanceToObject then Err(UnknownInstance(instance))
      else if graspType !in LegacyGraspTypeToPreshape then Err(UnknownGraspType(graspType))
      else Ok(Value(InstanceToObject[instance], instance, texture, graspType,
                    LegacyGraspTypeToPreshape[graspType], viewType))
  }

  /**
   * What `OnBeginRendering` does on a frame, given whether the frame is captured, the
   * children of "Foreground Object" (none when that child is missing) and the view type.
   * The instance lookup comes before the grasp child is read, and that before the preshape
   * lookup.
   */
  function Render(labeler: Labeler, capture: bool, foreground: Option<seq<CachedObject>>, viewType: string): Rendering {
    if labeler.DataCollectionLabeler? && !capture then Skipped
    else if foreground.None? then Threw(ForegroundObjectMissing, false)
    else
      var objs := foreground.value;
      var count := CountSet(InSceneFlags(objs));
      if count != 1 then Threw(ObjectsInScene(count), false)
      else
        var obj := objs[LastSetIndex(InSceneFlags(objs))];
        var active := CountSet(ActiveFlags(obj.grasps));
        var childIdx := LastSet(ActiveFlags(obj.grasps));
        var stop := active != 1;
        var instance := InstanceOf(obj.name);
        if instance !in InstanceToObject then Threw(UnknownInstance(instance), stop)
        else if childIdx < 0 then Threw(GraspChildOutOfRange, stop)
        else
          match LabelOf(labeler, obj, obj.grasps[ChildIndex(obj.grasps)].name, viewType)
          case Err(e) => Threw(e, stop)
          case Ok(a) => Labelled(a, capture, stop)
  }

  /** The index of the one flag set, when there is one. */
  function LastSetIndex(flags: seq<bool>): (i: nat)
    requires CountSet(flags) == 1
    ensures i < |flags|
  {
    SingleSetIsLast(flags);
    LastSet(flags)
  }

  /** The last active grasp child, when there is one. */
  function ChildIndex(grasps: seq<GraspChildState>): (i: nat)
    requires LastSet(ActiveFlags(grasps)) >= 0
    ensures i < |grasps|
  {
    LastSetIsLast(ActiveFlags(grasps));
    LastSet(ActiveFlags(grasps))
  }

  /**
   * `OnBeginRendering`, with its two counting loops: the instances that pass the position
   * filter, then the active grasp children of the one in view.
   */
  method OnBeginRendering(labeler: Labeler, capture: bool, foreground: Option<seq<CachedObject>>, viewType: string)
    returns (r: Rendering)
    ensures r == Render(labeler, capture, foreground, viewType)
  {
    if labeler.DataCollectionLabeler? && !capture {
      return Skipped;
    }
    if foreground.None? {
      return Threw(ForegroundObjectMissing, false);
    }
    var objs := foreground.value;
    var count, last := CountAndLast(InSceneFlags(objs));
    if count != 1 {
      return Threw(ObjectsInScene(count), false);
    }
    SingleSetIsLast(InSceneFlags(objs));
    var obj := objs[last];
    var countActiveGrasp, childIdx := CountAndLast(ActiveFlags(obj.grasps));
    LastSetIsLast(ActiveFlags(obj.grasps));
    var stop := countActiveGrasp != 1;
    var instance := InstanceOf(obj.name);
    if instance !in InstanceToObject {
      return Threw(UnknownInstance(instance), stop);
    }
    if childIdx < 0 {
      return Threw(GraspChildOutOfRange, stop);
    }
    var result := LabelOf(labeler, obj, obj.grasps[childIdx].name, viewType);
    match result
    case Err(e) => r := Threw(e, stop);
    case Ok(l) => r := Labelled(l, capture, stop);
  }

  // ---------------------------------------------------------------------------
  // Properties

  /** The data-collection labeler does nothing on a frame that is not captured. */
  lemma NothingOffCaptureFrames(foreground: Option<seq<CachedObject>>, viewType: string)
    ensures Render(DataCollectionLabeler, false, foreground, viewType) == Skipped
  {
  }

  /**
   * The older labeler does the same work on every frame, throwing the same exceptions, and
   * reports the annotation only on captured frames.
   */
  lemma LegacyWorksEveryFrame(foreground: Option<seq<CachedObject>>, viewType: string)
    ensures var off := Render(LegacyLabeler, false, foreground, viewType);
            var on := Render(LegacyLabeler, true, foreground, viewType);
            !off.Skipped? && (off.Threw? <==> on.Threw?) && (off.Threw? ==> off == on) &&
            (off.Labelled? ==> on == off.(reported := true) && !off.reported)
  {
  }

  /**
   * Once the frame is worked on and the scenario has its "Foreground Object", the call
   * throws the object-count exception exactly when the number of instances in view is not
   * one, with that number.
   */
  lemma ObjectCountChecked(labeler: Labeler, capture: bool, objs: seq<CachedObject>, viewType: string)
    requires labeler.LegacyLabeler? || capture
    ensures var r := Render(labeler, capture, Some(objs), viewType);
            (r.Threw? && r.error.ObjectsInScene?) <==> CountSet(InSceneFlags(objs)) != 1
    ensures var r := Render(labeler, capture, Some(objs), viewType);
            r.Threw? && r.error.ObjectsInScene? ==> r.error.count == CountSet(InSceneFlags(objs))
  {
  }

  /** Exactly one set flag, at k: the count is one and the last set flag is k. */
  lemma {:induction false} OnlySet(flags: seq<bool>, k: nat)
    requires k < |flags| && flags[k]
    requires forall j :: 0 <= j < |flags| && j != k ==> !flags[j]
    ensures CountSet(flags) == 1 && LastSet(flags) == k
    decreases |flags|
  {
    var init := flags[..|flags| - 1];
    if k < |flags| - 1 {
      OnlySet(init, k);
    } else {
      NoneSet(init);
    }
  }

  lemma {:induction false} NoneSet(flags: seq<bool>)
    requires forall j :: 0 <= j < |flags| ==> !flags[j]
    ensures CountSet(flags) == 0 && LastSet(flags) == -1
    decreases |flags|
  {
    if |flags| > 0 {
      NoneSet(flags[..|flags| - 1]);
    }
  }

  /**
   * An annotation comes only from a frame with exactly one instance in view, the last (and
   * only) one the filter passed.
   */
  lemma LabelledInView(labeler: Labeler, capture: bool, objs: seq<CachedObject>, viewType: string)
    requires Render(labeler, capture, Some(objs), viewType).Labelled?
    ensures CountSet(InSceneFlags(objs)) == 1
    ensures var k := LastSet(InSceneFlags(objs));
            0 <= k < |objs| && InScene(objs[k]) &&
            (forall j :: 0 <= j < |objs| && InScene(objs[j]) ==> j == k)
  {
    var flags := InSceneFlags(objs);
    SingleSetIsLast(flags);
    assert forall j :: 0 <= j < |objs| ==> flags[j] == InScene(objs[j]);
  }

  /**
   * An annotation is about the instance in view and its last active grasp child: its
   * instance name is the instance's name without "(Clone)", its object and preshape come
   * from the dictionaries, and a stop was requested exactly when the instance did not have
   * exactly one active grasp.
   */
  lemma LabelledMeaning(labeler: Labeler, capture: bool, objs: seq<CachedObject>, k: nat, viewType: string)
    requires Render(labeler, capture, Some(objs), viewType).Labelled?
    requires k == LastSet(InSceneFlags(objs))
    ensures k < |objs| &&
            var obj := objs[k];
            var r := Render(labeler, capture, Some(objs), viewType);
            var g := LastSet(ActiveFlags(obj.grasps));
            0 <= g < |obj.grasps| && obj.grasps[g].active &&
            (forall j :: g < j < |obj.grasps| ==> !obj.grasps[j].active) &&
            r.stopRequested == (CountSet(ActiveFlags(obj.grasps)) != 1) && r.reported == capture &&
            r.annotation.instanceName == InstanceOf(obj.name) &&
            r.annotation.instanceName in InstanceToObject &&
            r.annotation.objectName == InstanceToObject[r.annotation.instanceName] &&
            r.annotation.graspTypeName in PreshapeTable(labeler) &&
            r.annotation.preshapeName == PreshapeTable(labeler)[r.annotation.graspTypeName] &&
            r.annotation.viewTypeName == viewType &&
            r.annotation.textureName == TextureName(labeler, obj.material)
  {
    SingleSetIsLast(InSceneFlags(objs));
    var obj := objs[k];
    var active := ActiveFlags(obj.grasps);
    LastSetIsLast(active);
    assert forall j :: 0 <= j < |obj.grasps| ==> active[j] == obj.grasps[j].active;
  }

  /**
   * The whole chain for the data-collection labeler: a captured frame showing exactly one
   * instance, objs[k], of a known prefab, with exactly one active grasp child, g, named by a
   * known grasp type followed by tags (not both laterality tags), is annotated with the
   * prefab, its object, the grasp type, its preshape, the side and the three flags, with no
   * stop request.
   */
  lemma LabelOfTaggedGrasp(objs: seq<CachedObject>, k: nat, g: nat, prefab: string, base: string, ts: seq<Tag>,
                           viewType: string)
    requires k < |objs| && InScene(objs[k]) && forall j :: 0 <= j < |objs| && j != k ==> !InScene(objs[j])
    requires g < |objs[k].grasps| && objs[k].grasps[g].active
    requires forall j :: 0 <= j < |objs[k].grasps| && j != g ==> !objs[k].grasps[j].active
    requires objs[k].name == prefab + "(Clone)" && objs[k].grasps[g].name == base + TagsText(ts)
    requires '(' !in prefab && Untagged(base) && !(Left in ts && Right in ts)
    requires prefab in InstanceToObject && base in GraspTypeToPreshape
    ensures Render(DataCollectionLabeler, true, Some(objs), viewType)
            == Labelled(MetaValues(InstanceToObject[prefab], prefab, TextureName(DataCollectionLabeler, objs[k].material),
                                   base, GraspTypeToPreshape[base], viewType,
                                   SideName(if Left in ts then LeftSide else if Right in ts then RightSide else NoSide),
                                   Nops in ts, Usd in ts, Susd in ts),
                        true, false)
  {
    var flags := InSceneFlags(objs);
    OnlySet(flags, k);
    var active := ActiveFlags(objs[k].grasps);
    OnlySet(active, g);
    InstanceOfClone(prefab);
    ParseTaggedName(base, ts);
    LeftoverTagsMembers(ts);
    assert base + TagsText([]) == base;
  }
}
