// The material randomizers of the room: the floor and the wall swap one named
// material slot of their renderer for a sampled material at the start of an
// iteration and put the original back at the end; the table swaps its single
// material the same way.
//
// A material is a name plus the identity of the asset behind it. Unity reports
// a shared material assigned to a renderer as an instance copy whose name
// carries the suffix " (Instance)"; the model stores that instance when the
// sampled material is assigned. Samplers are inputs: one [0,1] draw per tag and
// the sampled materials.

module MaterialRandomizers {
  import opened Wrappers

  datatype Material = Material(name: string, asset: nat)

  const InstanceSuffix: string := " (Instance)"
  const FloorMaterialName: string := "MarbleFlooring_Mat (Instance)"
  const WallMaterialName: string := "ConcreteHoles_Mat (Instance)"

  /** The instance copy under which a renderer reports an assigned material. */
  function Instanced(m: Material): Material {
    m.(name := m.name + InstanceSuffix)
  }

  /** Whether each tag's [0,1] draw lets it be randomized. */
  function Applied(draws: seq<real>, range: real): (a: seq<bool>)
    ensures |a| == |draws|
  {
    seq(|draws|, t requires 0 <= t < |draws| => draws[t] <= range)
  }

  // ---------------------------------------------------------------------------
  // One renderer of the floor or the wall

  /** The last slot with the given name, or -1. */
  function LastIndexNamed(mats: seq<Material>, name: string): (k: int)
    ensures -1 <= k < |mats|
    ensures k >= 0 ==> mats[k].name == name
    ensures forall j :: k < j < |mats| ==> mats[j].name != name
    decreases |mats|
  {
    if |mats| == 0 then -1
    else if mats[|mats| - 1].name == name then |mats| - 1
    else LastIndexNamed(mats[..|mats| - 1], name)
  }

  /** A slot with the name and none after it is the last one; with no such slot there is none. */
  lemma LastIndexIs(mats: seq<Material>, name: string, k: int)
    requires -1 <= k < |mats| && (k >= 0 ==> mats[k].name == name)
    requires forall j :: k < j < |mats| ==> mats[j].name != name
    ensures LastIndexNamed(mats, name) == k
  {
  }

  /** The first slot with the given name, or -1. */
  function FirstIndexNamed(mats: seq<Material>, name: string): (k: int)
    ensures -1 <= k < |mats|
    ensures k >= 0 ==> mats[k].name == name
    ensures forall j :: 0 <= j < |mats| && (k < 0 || j < k) ==> mats[j].name != name
    decreases |mats|
  {
    if |mats| == 0 then -1
    else
      var k := FirstIndexNamed(mats[..|mats| - 1], name);
      if k >= 0 then k
      else if mats[|mats| - 1].name == name then |mats| - 1
      else -1
  }

  /** The new array: every slot named `target` holds the instance of its sampled material. */
  function Swapped(mats: seq<Material>, target: string, pick: seq<Material>): (r: seq<Material>)
    requires |pick| == |mats|
    ensures |r| == |mats|
    ensures forall i :: 0 <= i < |mats| && mats[i].name != target ==> r[i] == mats[i]
    ensures forall i :: 0 <= i < |mats| && mats[i].name == target ==>
      r[i].asset == pick[i].asset && r[i].name == pick[i].name + InstanceSuffix
  {
    seq(|mats|, i requires 0 <= i < |mats| => if mats[i].name == target then Instanced(pick[i]) else mats[i])
  }

  /** The saved original and sampled name, and whether a stop was requested. */
  datatype SwapState = SwapState(original: Option<Material>, sampledName: Option<string>, stopRequested: bool)

  /** The two saved fields are set and cleared together. */
  predicate Consistent(st: SwapState) {
    st.original.Some? == st.sampledName.Some?
  }

  /**
   * The fields after one randomized renderer: the last matching slot's material
   * and its sample's instance name are recorded; with nothing recorded at all
   * (none now and none left from before) a stop is requested.
   */
  function TagStart(st: SwapState, mats: seq<Material>, target: string, pick: seq<Material>): SwapState
    requires |pick| == |mats|
  {
    var k := LastIndexNamed(mats, target);
    var st1 := if k >= 0 then st.(original := Some(mats[k]), sampledName := Some(pick[k].name + InstanceSuffix)) else st;
    if st1.original.None? then st1.(stopRequested := true) else st1
  }

  /**
   * The end step on one renderer: the first slot named like the sampled
   * instance gets the original back and both fields are cleared; every other
   * slot is kept.
   */
  function TagEnd(st: SwapState, mats: seq<Material>): (SwapState, seq<Material>)
    requires Consistent(st)
  {
    if st.sampledName.None? then (st, mats)
    else
      var k := FirstIndexNamed(mats, st.sampledName.value);
      if k >= 0 then (st.(original := None, sampledName := None), mats[k := st.original.value])
      else (st, mats)
  }

  lemma TagStartConsistent(st: SwapState, mats: seq<Material>, target: string, pick: seq<Material>)
    requires |pick| == |mats| && Consistent(st)
    ensures Consistent(TagStart(st, mats, target, pick))
    ensures TagStart(st, mats, target, pick).stopRequested
      <==> st.stopRequested || (st.original.None? && LastIndexNamed(mats, target) < 0)
  {
  }

  /**
   * A renderer without the target slot requests a stop only when nothing is
   * recorded; a material left recorded by an earlier iteration hides the error.
   */
  lemma MissingTargetStops(st: SwapState, mats: seq<Material>, target: string, pick: seq<Material>)
    requires |pick| == |mats| && forall j :: 0 <= j < |mats| ==> mats[j].name != target
    ensures TagStart(st, mats, target, pick).stopRequested <==> st.stopRequested || st.original.None?
    ensures TagStart(st, mats, target, pick).original == st.original
  {
    assert LastIndexNamed(mats, target) < 0;
  }

  /**
   * Start then end on one renderer with exactly one target slot, whose sampled
   * instance name no other slot carries, gives back the original array and
   * clears the saved fields.
   */
  lemma SwapThenRestore(st: SwapState, mats: seq<Material>, target: string, pick: seq<Material>, k: nat)
    requires |pick| == |mats| && k < |mats| && mats[k].name == target
    requires forall j :: 0 <= j < |mats| && j != k ==> mats[j].name != target
    requires forall j :: 0 <= j < |mats| && j != k ==> mats[j].name != pick[k].name + InstanceSuffix
    ensures var st1 := TagStart(st, mats, target, pick);
      Consistent(st1) && !(st1.stopRequested && !st.stopRequested)
      && TagEnd(st1, Swapped(mats, target, pick)) == (st1.(original := None, sampledName := None), mats)
  {
    var swapped := Swapped(mats, target, pick);
    assert LastIndexNamed(mats, target) == k;
    var name := pick[k].name + InstanceSuffix;
    assert swapped[k].name == name;
    forall j | 0 <= j < |mats| && j != k ensures swapped[j].name != name {
      assert swapped[j] == mats[j];
    }
    var f := FirstIndexNamed(swapped, name);
    assert f == k;
    assert swapped[k := mats[k]] == mats;
  }


  /** The fields after the start step over all renderers, tag by tag. */
  function StartTags(st: SwapState, befores: seq<seq<Material>>, applied: seq<bool>, target: string,
                     picks: seq<seq<Material>>): SwapState
    requires |applied| == |befores| == |picks|
    requires forall t :: 0 <= t < |befores| ==> |picks[t]| == |befores[t]|
    decreases |befores|
  {
    if |befores| == 0 then st
    else
      var st1 := if applied[0] then TagStart(st, befores[0], target, picks[0]) else st;
      StartTags(st1, befores[1..], applied[1..], target, picks[1..])
  }

  /** The first renderer holding a slot named `name`, or -1. */
  function FirstTagWith(befores: seq<seq<Material>>, name: string): (k: int)
    ensures -1 <= k < |befores|
    ensures k >= 0 ==> FirstIndexNamed(befores[k], name) >= 0
    ensures forall j :: 0 <= j < |befores| && (k < 0 || j < k) ==> FirstIndexNamed(befores[j], name) < 0
    decreases |befores|
  {
    if |befores| == 0 then -1
    else
      var k := FirstTagWith(befores[..|befores| - 1], name);
      if k >= 0 then k
      else if FirstIndexNamed(befores[|befores| - 1], name) >= 0 then |befores| - 1
      else -1
  }

  /**
   * The fields after the end step over all renderers: cleared exactly when
   * some renderer holds a slot named like the sampled instance.
   */
  function EndFields(st: SwapState, befores: seq<seq<Material>>): (r: SwapState)
    requires Consistent(st)
    ensures Consistent(r) && r.stopRequested == st.stopRequested
  {
    if st.sampledName.Some? && FirstTagWith(befores, st.sampledName.value) >= 0
    then st.(original := None, sampledName := None)
    else st
  }

  /**
   * The array of renderer t after the end step: only the first renderer
   * holding the sampled instance name is rebuilt, by its own end step; every
   * other renderer keeps its array.
   */
  function EndArray(st: SwapState, befores: seq<seq<Material>>, t: nat): seq<Material>
    requires Consistent(st) && t < |befores|
  {
    if st.sampledName.Some? && t == FirstTagWith(befores, st.sampledName.value)
    then TagEnd(st, befores[t]).1
    else befores[t]
  }

  /** The fields the end loop leaves after the first t renderers. */
  function EndsBefore(st0: SwapState, befores: seq<seq<Material>>, t: nat): (r: SwapState)
    requires Consistent(st0) && st0.sampledName.Some?
    ensures Consistent(r)
  {
    var first := FirstTagWith(befores, st0.sampledName.value);
    if 0 <= first < t then st0.(original := None, sampledName := None) else st0
  }

  /** One renderer of the end loop, given the fields the renderers before it left. */
  lemma EndStep(st0: SwapState, befores: seq<seq<Material>>, t: nat)
    requires Consistent(st0) && st0.sampledName.Some? && t < |befores|
    ensures TagEnd(EndsBefore(st0, befores, t), befores[t]) == (EndsBefore(st0, befores, t + 1), EndArray(st0, befores, t))
  {
  }

  /**
   * The renderer the floor and wall randomizers rebuild. Its materials
   * property hands out a copy of the slots and takes a whole new array back,
   * so the slots are a value here.
   */
  class Renderer {
    var materials: seq<Material>

    constructor(materials: seq<Material>)
      ensures this.materials == materials
    {
      this.materials := materials;
    }
  }

  /** The contents of every renderer's array, in tag order. */
  function Contents(tags: seq<Renderer>): (c: seq<seq<Material>>)
    reads set r | r in tags
    ensures |c| == |tags|
    ensures forall t :: 0 <= t < |tags| ==> c[t] == tags[t].materials
    decreases |tags|
  {
    if |tags| == 0 then [] else [tags[0].materials] + Contents(tags[1..])
  }

  /**
   * FloorMaterialRandomizer and WallMaterialRandomizer: the same code with a
   * different target slot name.
   */
  class SwapRestoreRandomizer {
    const targetName: string
    const samplingRangeMaterial: real
    var originalObjMaterial: Option<Material>
    var sampledObjMaterialName: Option<string>
    var stopRequested: bool

    function Fields(): SwapState
      reads this
    {
      SwapState(originalObjMaterial, sampledObjMaterialName, stopRequested)
    }

    predicate Valid()
      reads this
    {
      Consistent(Fields())
    }

    constructor(targetName: string, samplingRangeMaterial: real)
      ensures this.targetName == targetName && this.samplingRangeMaterial == samplingRangeMaterial
      ensures Fields() == SwapState(None, None, false) && Valid()
    {
      this.targetName := targetName;
      this.samplingRangeMaterial := samplingRangeMaterial;
      originalObjMaterial := None;
      sampledObjMaterialName := None;
      stopRequested := false;
    }

    /** One randomized renderer: build the new array slot by slot and install it. */
    method RandomizeTag(r: Renderer, pick: seq<Material>)
      requires Valid() && |pick| == |r.materials|
      modifies this, r
      ensures Valid()
      ensures r.materials == Swapped(old(r.materials), targetName, pick)
      ensures Fields() == TagStart(old(Fields()), old(r.materials), targetName, pick)
    {
      var mats := r.materials;
      ghost var swapped := Swapped(mats, targetName, pick);
      ghost var last := -1;
      var original, sampledName := originalObjMaterial, sampledObjMaterialName;
      var newMaterials := new Material[|mats|];
      var i := 0;
      while i < |mats|
        invariant 0 <= i <= |mats| && -1 <= last < i
        modifies newMaterials
        invariant forall j :: 0 <= j < i ==> newMaterials[j] == swapped[j]
        invariant last >= 0 ==> mats[last].name == targetName
        invariant forall j :: last < j < i ==> mats[j].name != targetName
        invariant if last >= 0 then original == Some(mats[last]) && sampledName == Some(pick[last].name + InstanceSuffix)
          else original == originalObjMaterial && sampledName == sampledObjMaterialName
      {
        var mat := mats[i];
        if mat.name == targetName {
          original := Some(mat);
          newMaterials[i] := Instanced(pick[i]);
          sampledName := Some(newMaterials[i].name);
          last := i;
        } else {
          newMaterials[i] := mat;
        }
        i := i + 1;
      }
      LastIndexIs(mats, targetName, last);
      assert newMaterials[..] == swapped;
      originalObjMaterial, sampledObjMaterialName := original, sampledName;
      if originalObjMaterial.None? {
        stopRequested := true;
      }
      r.materials := newMaterials[..];
    }

    /** Randomize every tagged renderer whose draw is within the range. */
    method OnIterationStart(tags: seq<Renderer>, draws: seq<real>, picks: seq<seq<Material>>)
      requires Valid() && |draws| == |tags| && |picks| == |tags|
      requires forall t, u :: 0 <= t < u < |tags| ==> tags[t] != tags[u]
      requires forall t :: 0 <= t < |tags| ==> |picks[t]| == |tags[t].materials|
      modifies this, tags
      ensures Valid()
      ensures Fields() == StartTags(old(Fields()), old(Contents(tags)), Applied(draws, samplingRangeMaterial), targetName, picks)
      ensures forall t :: 0 <= t < |tags| ==>
        tags[t].materials == if draws[t] <= samplingRangeMaterial
          then Swapped(old(tags[t].materials), targetName, picks[t])
          else old(tags[t].materials)
    {
      ghost var befores := Contents(tags);
      ghost var applied := Applied(draws, samplingRangeMaterial);
      var t := 0;
      while t < |tags|
        invariant 0 <= t <= |tags| && Valid()
        invariant StartTags(old(Fields()), befores, applied, targetName, picks)
          == StartTags(Fields(), befores[t..], applied[t..], targetName, picks[t..])
        invariant forall u :: t <= u < |tags| ==> tags[u].materials == old(tags[u].materials)
        invariant forall u :: 0 <= u < t ==>
          tags[u].materials == if draws[u] <= samplingRangeMaterial then Swapped(befores[u], targetName, picks[u]) else befores[u]
      {
        if draws[t] <= samplingRangeMaterial {
          RandomizeTag(tags[t], picks[t]);
        }
        t := t + 1;
      }
    }

    /** Put the original back into the first slot named like the sampled instance. */
    method RestoreTag(r: Renderer)
      requires Valid()
      modifies this`originalObjMaterial, this`sampledObjMaterialName, r
      ensures Valid()
      ensures (Fields(), r.materials) == TagEnd(old(Fields()), old(r.materials))
    {
      ghost var st := Fields();
      var mats := r.materials;
      ghost var first := if st.sampledName.Some? then FirstIndexNamed(mats, st.sampledName.value) else -1;
      ghost var restored := TagEnd(st, mats).1;
      var original, sampledName := originalObjMaterial, sampledObjMaterialName;
      var newMaterials := new Material[|mats|];
      var i := 0;
      while i < |mats|
        invariant 0 <= i <= |mats|
        modifies newMaterials
        invariant forall j :: 0 <= j < i ==> newMaterials[j] == restored[j]
        invariant if 0 <= first < i then original == None && sampledName == None
          else original == st.original && sampledName == st.sampledName
      {
        var mat := mats[i];
        if sampledName.Some? && mat.name == sampledName.value {
          newMaterials[i] := original.value;
          original := None;
          sampledName := None;
        } else {
          newMaterials[i] := mat;
        }
        i := i + 1;
      }
      assert newMaterials[..] == restored;
      originalObjMaterial, sampledObjMaterialName := original, sampledName;
      r.materials := newMaterials[..];
    }

    /** Restore the swapped slot, provided an original is saved. */
    method OnIterationEnd(tags: seq<Renderer>)
      requires Valid()
      requires forall t, u :: 0 <= t < u < |tags| ==> tags[t] != tags[u]
      modifies this, tags
      ensures Valid()
      ensures old(originalObjMaterial).None? ==>
        Fields() == old(Fields()) && forall t :: 0 <= t < |tags| ==> tags[t].materials == old(tags[t].materials)
      ensures old(originalObjMaterial).Some? ==>
        Fields() == EndFields(old(Fields()), old(Contents(tags)))
        && forall t :: 0 <= t < |tags| ==> tags[t].materials == EndArray(old(Fields()), old(Contents(tags)), t)
    {
      if originalObjMaterial.Some? {
        RestoreAll(tags);
      }
    }

    /** The end loop over every renderer, entered with an original saved. */
    method RestoreAll(tags: seq<Renderer>)
      requires Valid() && originalObjMaterial.Some?
      requires forall t, u :: 0 <= t < u < |tags| ==> tags[t] != tags[u]
      modifies this`originalObjMaterial, this`sampledObjMaterialName, tags
      ensures Valid()
      ensures Fields() == EndFields(old(Fields()), old(Contents(tags)))
      ensures forall t :: 0 <= t < |tags| ==> tags[t].materials == EndArray(old(Fields()), old(Contents(tags)), t)
    {
      ghost var st0 := Fields();
      ghost var befores := Contents(tags);
      ghost var afters := seq(|tags|, u requires 0 <= u < |tags| => EndArray(st0, befores, u));
      var t := 0;
      while t < |tags|
        invariant 0 <= t <= |tags|
        invariant Fields() == EndsBefore(st0, befores, t)
        invariant forall u :: t <= u < |tags| ==> tags[u].materials == befores[u]
        invariant forall u :: 0 <= u < t ==> tags[u].materials == afters[u]
      {
        RestoreNext(tags[t], st0, befores, t);
        t := t + 1;
      }
    }

    /** Renderer t of the end loop, entered with the fields the renderers before it left. */
    method RestoreNext(r: Renderer, ghost st0: SwapState, ghost befores: seq<seq<Material>>, ghost t: nat)
      requires Consistent(st0) && st0.sampledName.Some? && t < |befores|
      requires Fields() == EndsBefore(st0, befores, t) && r.materials == befores[t]
      modifies this`originalObjMaterial, this`sampledObjMaterialName, r
      ensures Fields() == EndsBefore(st0, befores, t + 1) && r.materials == EndArray(st0, befores, t)
    {
      EndStep(st0, befores, t);
      RestoreTag(r);
    }
  }

  // ---------------------------------------------------------------------------
  // The table

  /** The table swaps its renderer's single material; null is None. */
  class TableRenderer {
    var material: Option<Material>

    constructor(material: Option<Material>)
      ensures this.material == material
    {
      this.material := material;
    }
  }

  function TableMaterials(tags: seq<TableRenderer>): (m: seq<Option<Material>>)
    reads set r | r in tags
    ensures |m| == |tags|
    ensures forall t :: 0 <= t < |tags| ==> m[t] == tags[t].material
    decreases |tags|
  {
    if |tags| == 0 then [] else [tags[0].material] + TableMaterials(tags[1..])
  }

  /** The last set flag, or -1. */
  function LastTrue(a: seq<bool>): (k: int)
    ensures -1 <= k < |a|
    ensures k >= 0 ==> a[k]
    ensures forall j :: k < j < |a| ==> !a[j]
    decreases |a|
  {
    if |a| == 0 then -1
    else if a[|a| - 1] then |a| - 1
    else LastTrue(a[..|a| - 1])
  }

  /** The first set flag, or -1. */
  function FirstTrue(a: seq<bool>): (k: int)
    ensures -1 <= k < |a|
    ensures k >= 0 ==> a[k]
    ensures forall j :: 0 <= j < |a| && (k < 0 || j < k) ==> !a[j]
    decreases |a|
  {
    if |a| == 0 then -1
    else
      var k := FirstTrue(a[..|a| - 1]);
      if k >= 0 then k else if a[|a| - 1] then |a| - 1 else -1
  }

  /**
   * The saved original after the start step: each randomized tag overwrites
   * it, so with several tags the last randomized one's material stays saved.
   */
  function SavedAfterStart(mats: seq<Option<Material>>, applied: seq<bool>, saved: Option<Material>): Option<Material>
    requires |applied| == |mats|
  {
    var k := LastTrue(applied);
    if k >= 0 then mats[k] else saved
  }

  /**
   * The materials after the end step: the first tag whose fresh draw fires
   * gets the saved material, which is then cleared, so every later firing tag
   * gets null; tags whose draw does not fire keep their material.
   */
  function TableEndMaterials(mats: seq<Option<Material>>, applied: seq<bool>, saved: Option<Material>): seq<Option<Material>>
    requires |applied| == |mats|
  {
    var k := FirstTrue(applied);
    seq(|mats|, j requires 0 <= j < |mats| => if !applied[j] then mats[j] else if j == k then saved else None)
  }

  /** The saved material after the end step: cleared once some tag fired. */
  function TableEndSaved(applied: seq<bool>, saved: Option<Material>): Option<Material> {
    if FirstTrue(applied) >= 0 then None else saved
  }

  /**
   * A round trip: when the tag randomized last at the start is the first one
   * whose end draw fires and it had a material, it gets that material back,
   * nothing stays saved, and every later tag whose end draw fires is left
   * with null.
   */
  lemma TableRoundTrip(mats: seq<Option<Material>>, during: seq<Option<Material>>,
                       startApplied: seq<bool>, endApplied: seq<bool>, saved: Option<Material>)
    requires |startApplied| == |mats| && |endApplied| == |mats| && |during| == |mats|
    requires 0 <= LastTrue(startApplied) && FirstTrue(endApplied) == LastTrue(startApplied)
    requires mats[LastTrue(startApplied)].Some?
    ensures var k := LastTrue(startApplied);
      var kept := SavedAfterStart(mats, startApplied, saved);
      var ends := TableEndMaterials(during, endApplied, kept);
      kept.Some? && ends[k] == mats[k] && TableEndSaved(endApplied, kept) == None
      && forall j :: k < j < |mats| && endApplied[j] ==> ends[j] == None
  {
  }

  /** A set flag with none after it is the last one; with no flag set there is none. */
  lemma LastTrueIs(a: seq<bool>, k: int)
    requires -1 <= k < |a| && (k >= 0 ==> a[k]) && forall j :: k < j < |a| ==> !a[j]
    ensures LastTrue(a) == k
  {
  }

  class TableMaterialRandomizer {
    const samplingRangeMaterial: real
    var originalObjMaterial: Option<Material>

    constructor(samplingRangeMaterial: real)
      ensures this.samplingRangeMaterial == samplingRangeMaterial && originalObjMaterial == None
    {
      this.samplingRangeMaterial := samplingRangeMaterial;
      originalObjMaterial := None;
    }

    /** Save one tag's material and give it the sampled one. */
    method SwapTag(r: TableRenderer, sample: Material)
      modifies this`originalObjMaterial, r
      ensures originalObjMaterial == old(r.material) && r.material == Some(sample)
    {
      originalObjMaterial := r.material;
      r.material := Some(sample);
    }

    /** Give one tag the saved material, which is then cleared. */
    method RestoreTag(r: TableRenderer)
      modifies this`originalObjMaterial, r
      ensures r.material == old(originalObjMaterial) && originalObjMaterial == None
    {
      r.material := originalObjMaterial;
      originalObjMaterial := None;
    }

    method OnIterationStart(tags: seq<TableRenderer>, draws: seq<real>, samples: seq<Material>)
      requires |draws| == |tags| && |samples| == |tags|
      requires forall t, u :: 0 <= t < u < |tags| ==> tags[t] != tags[u]
      modifies this, tags
      ensures originalObjMaterial
        == SavedAfterStart(old(TableMaterials(tags)), Applied(draws, samplingRangeMaterial), old(originalObjMaterial))
      ensures forall t :: 0 <= t < |tags| ==>
        tags[t].material == if draws[t] <= samplingRangeMaterial then Some(samples[t]) else old(tags[t].material)
    {
      ghost var befores := TableMaterials(tags);
      ghost var applied := Applied(draws, samplingRangeMaterial);
      ghost var last := -1;
      var t := 0;
      while t < |tags|
        invariant 0 <= t <= |tags| && -1 <= last < t
        invariant last >= 0 ==> applied[last]
        invariant forall j :: last < j < t ==> !applied[j]
        invariant originalObjMaterial == if last >= 0 then befores[last] else old(originalObjMaterial)
        invariant forall u :: t <= u < |tags| ==> tags[u].material == befores[u]
        invariant forall u :: 0 <= u < t ==>
          tags[u].material == if draws[u] <= samplingRangeMaterial then Some(samples[u]) else befores[u]
      {
        if draws[t] <= samplingRangeMaterial {
          SwapTag(tags[t], samples[t]);
          last := t;
        }
        t := t + 1;
      }
      LastTrueIs(applied, last);
    }

    method OnIterationEnd(tags: seq<TableRenderer>, draws: seq<real>)
      requires |draws| == |tags|
      requires forall t, u :: 0 <= t < u < |tags| ==> tags[t] != tags[u]
      modifies this, tags
      ensures old(originalObjMaterial).None? ==>
        originalObjMaterial == None && forall t :: 0 <= t < |tags| ==> tags[t].material == old(tags[t].material)
      ensures old(originalObjMaterial).Some? ==>
        originalObjMaterial == TableEndSaved(Applied(draws, samplingRangeMaterial), old(originalObjMaterial))
        && TableMaterials(tags)
          == TableEndMaterials(old(TableMaterials(tags)), Applied(draws, samplingRangeMaterial), old(originalObjMaterial))
    {
      if originalObjMaterial.None? {
        return;
      }
      ghost var befores := TableMaterials(tags);
      ghost var applied := Applied(draws, samplingRangeMaterial);
      ghost var after := TableEndMaterials(befores, applied, originalObjMaterial);
      ghost var first := FirstTrue(applied);
      var t := 0;
      while t < |tags|
        invariant 0 <= t <= |tags|
        invariant originalObjMaterial == if 0 <= first < t then None else old(originalObjMaterial)
        invariant forall u :: t <= u < |tags| ==> tags[u].material == befores[u]
        invariant forall u :: 0 <= u < t ==> tags[u].material == after[u]
      {
        assert applied[t] == (draws[t] <= samplingRangeMaterial);
        assert after[t] == if !applied[t] then befores[t] else if t == first then old(originalObjMaterial) else None;
        if draws[t] <= samplingRangeMaterial {
          RestoreTag(tags[t]);
        }
        t := t + 1;
      }
    }
  }
}
