/**
 * SingleObjectPlacementRandomizer: each iteration takes one instance of a
 * sampled prefab from the object pool and puts it on the plane, at the plane's
 * position plus a sampled offset within the plane's half-extents, raised by
 * the half-height of the prefab's "textured" child so that it rests on the
 * plane. At the end of the iteration the pool takes every instance back.
 *
 * The pool hands out, for a prefab, an instance not already in use, creating
 * one when none is free; after a reset every instance is free again. An
 * instance is named here by its prefab and its copy number.
 */
module ObjectPlacement {
  import opened Wrappers
  import opened Scene

  /** A prefab, with the y half-extent of its "textured" child when it has one. */
  datatype PoolPrefab = PoolPrefab(name: string, texturedHalfHeight: Option<real>)

  /** The k-th instance of prefab p made by the pool. */
  datatype Instance = Instance(prefab: nat, copy: nat)

  datatype Outcome = Completed | NullReference

  /** The instance the pool hands out for prefab p when `inUse` lists the prefabs of the instances in use. */
  function Fetched(inUse: seq<nat>, p: nat): Instance {
    Instance(p, multiset(inUse)[p])
  }

  /** The instances in use, in the order the pool handed them out. */
  function InUse(inUse: seq<nat>): (r: seq<Instance>)
    ensures |r| == |inUse|
    ensures forall i :: 0 <= i < |inUse| ==> r[i] == Fetched(inUse[..i], inUse[i])
  {
    seq(|inUse|, i requires 0 <= i < |inUse| => Fetched(inUse[..i], inUse[i]))
  }

  /** The pool never hands out an instance that is already in use. */
  lemma InUseDistinct(inUse: seq<nat>, i: nat, j: nat)
    requires i < j < |inUse|
    ensures InUse(inUse)[i] != InUse(inUse)[j]
  {
    if inUse[i] == inUse[j] {
      var p := inUse[i];
      assert inUse[..j] == inUse[..i] + inUse[i..j];
      assert inUse[i..j][0] == p;
      assert p in multiset(inUse[i..j]);
      assert multiset(inUse[..j])[p] == multiset(inUse[..i])[p] + multiset(inUse[i..j])[p];
    }
  }

  /** Where an instance is put: the plane's position plus the sampled offset, raised by the half-height. */
  function Placement(plane: Vec3, sampleX: real, halfHeight: real, sampleZ: real): Vec3 {
    Plus(plane, Vec3(sampleX, halfHeight, sampleZ))
  }

  /**
   * With draws from samplers spanning the plane's half-extents, the object
   * lands within the plane's footprint, resting half its height above it.
   */
  lemma PlacementInFootprint(plane: Vec3, extents: Vec3, ux: Unit, uz: Unit, halfHeight: real)
    requires extents.x >= 0.0 && extents.z >= 0.0
    ensures var pos := Placement(plane, Uniform(-extents.x, extents.x, ux), halfHeight, Uniform(-extents.z, extents.z, uz));
      plane.x - extents.x <= pos.x <= plane.x + extents.x
      && plane.z - extents.z <= pos.z <= plane.z + extents.z
      && pos.y == plane.y + halfHeight
  {
    UniformBounds(-extents.x, extents.x, ux);
    UniformBounds(-extents.z, extents.z, uz);
  }

  class SingleObjectPlacementRandomizer {
    const prefabs: seq<PoolPrefab>
    const planePosition: Vec3
    /** The half-extents of the plane renderer's bounds. */
    const planeExtents: Vec3

    var rangeX: real
    var rangeZ: real
    /** The lower and upper ends of the two uniform samplers. */
    var samplerX: (real, real)
    var samplerZ: (real, real)
    var awake: bool
    /** The prefabs of the pooled instances in use, in the order they were handed out. */
    var inUse: seq<nat>
    /** The positions the instances were last given. */
    var positions: map<Instance, Vec3>

    /** Bounds extents are never negative, and after setup the samplers span them. */
    predicate Valid()
      reads this
    {
      planeExtents.x >= 0.0 && planeExtents.z >= 0.0
      && (awake ==> samplerX == (-planeExtents.x, planeExtents.x) && samplerZ == (-planeExtents.z, planeExtents.z))
    }

    constructor(prefabs: seq<PoolPrefab>, planePosition: Vec3, planeExtents: Vec3)
      requires planeExtents.x >= 0.0 && planeExtents.z >= 0.0
      ensures Valid()
      ensures this.prefabs == prefabs && this.planePosition == planePosition && this.planeExtents == planeExtents
      ensures !awake && inUse == [] && positions == map[]
    {
      this.prefabs := prefabs;
      this.planePosition := planePosition;
      this.planeExtents := planeExtents;
      rangeX := 0.0;
      rangeZ := 0.0;
      samplerX := (0.0, 0.0);
      samplerZ := (0.0, 0.0);
      awake := false;
      inUse := [];
      positions := map[];
    }

    /** The samplers span the plane's extent on either side of its centre. */
    method OnAwake()
      requires Valid()
      modifies this`rangeX, this`rangeZ, this`samplerX, this`samplerZ, this`awake
      ensures Valid() && awake && rangeX == planeExtents.x && rangeZ == planeExtents.z
      ensures samplerX == (-planeExtents.x, planeExtents.x) && samplerZ == (-planeExtents.z, planeExtents.z)
    {
      rangeX := planeExtents.x;
      rangeZ := planeExtents.z;
      samplerX := (-rangeX, rangeX);
      samplerZ := (-rangeZ, rangeZ);
      awake := true;
    }

    /**
     * Take one instance of the sampled prefab from the pool and place it; a
     * prefab without a "textured" child stops the step with a null reference
     * once the instance is taken.
     */
    method OnIterationStart(prefabDraw: nat, ux: Unit, uz: Unit) returns (outcome: Outcome, instance: Instance)
      requires Valid() && awake && prefabDraw < |prefabs|
      modifies this`inUse, this`positions
      ensures instance == Fetched(old(inUse), prefabDraw) && inUse == old(inUse) + [prefabDraw]
      ensures forall i :: 0 <= i < |old(inUse)| ==> InUse(old(inUse))[i] != instance
      ensures prefabs[prefabDraw].texturedHalfHeight.None? ==>
        outcome == NullReference && positions == old(positions)
      ensures prefabs[prefabDraw].texturedHalfHeight.Some? ==>
        outcome == Completed
        && positions == old(positions)[instance := Placement(planePosition,
             Uniform(-planeExtents.x, planeExtents.x, ux), prefabs[prefabDraw].texturedHalfHeight.value,
             Uniform(-planeExtents.z, planeExtents.z, uz))]
        && planePosition.x - planeExtents.x <= positions[instance].x <= planePosition.x + planeExtents.x
        && planePosition.z - planeExtents.z <= positions[instance].z <= planePosition.z + planeExtents.z
    {
      FetchedIsFree(inUse, prefabDraw);
      instance := Instance(prefabDraw, multiset(inUse)[prefabDraw]);
      inUse := inUse + [prefabDraw];
      var sampleX := Uniform(samplerX.0, samplerX.1, ux);
      var sampleZ := Uniform(samplerZ.0, samplerZ.1, uz);
      match prefabs[prefabDraw].texturedHalfHeight {
        case None =>
          outcome := NullReference;
        case Some(yOffset) =>
          PlacementInFootprint(planePosition, planeExtents, ux, uz, yOffset);
          positions := positions[instance := Placement(planePosition, sampleX, yOffset, sampleZ)];
          outcome := Completed;
      }
    }

    /** Every instance goes back to the pool; positions are left as they were. */
    method OnIterationEnd()
      modifies this`inUse
      ensures inUse == []
    {
      inUse := [];
    }
  }

  /** The instance a start takes differs from every instance already in use. */
  lemma FetchedIsFree(inUse: seq<nat>, p: nat)
    ensures forall i :: 0 <= i < |inUse| ==> InUse(inUse)[i] != Fetched(inUse, p)
  {
    var more := inUse + [p];
    assert more[..|inUse|] == inUse;
    forall i | 0 <= i < |inUse| ensures InUse(inUse)[i] != Fetched(inUse, p) {
      assert more[..i] == inUse[..i];
      InUseDistinct(more, i, |inUse|);
    }
  }
}
