/**
 * The name parsing of the grasp-type labeler (`GraspTypeLabeler`), in its two variants:
 * the data-collection labeler and the older one.
 *
 * A grasp child is named by its grasp type followed by tags: "[nops]" (no
 * pronation-supination), "[usd]" (upside down), "[susd]" (upside down on a draw), and
 * "[left]" / "[right]" (the side of the object). A pooled instance is named after its
 * prefab with "(Clone)" appended, and a material instance with " (Instance)" appended.
 */
module GraspNames {
  import opened Text
  import opened Wrappers

  /** Which of the two labelers a rule belongs to. */
  datatype Labeler = DataCollectionLabeler | LegacyLabeler

  // ---------------------------------------------------------------------------
  // Tags

  datatype Tag = Nops | Usd | Susd | Left | Right

  function TagText(t: Tag): string {
    match t
    case Nops => "[nops]"
    case Usd => "[usd]"
    case Susd => "[susd]"
    case Left => "[left]"
    case Right => "[right]"
  }

  /** The tags written one after the other, as they follow a grasp type in a child's name. */
  function TagsText(ts: seq<Tag>): string
    decreases |ts|
  {
    if |ts| == 0 then "" else TagText(ts[0]) + TagsText(ts[1..])
  }

  /** The tags of ts other than t, in order. */
  function Without(ts: seq<Tag>, t: Tag): (r: seq<Tag>)
    decreases |ts|
  {
    if |ts| == 0 then []
    else if ts[0] == t then Without(ts[1..], t)
    else [ts[0]] + Without(ts[1..], t)
  }

  lemma {:induction false} WithoutMembers(ts: seq<Tag>, t: Tag)
    ensures forall u :: u in Without(ts, t) <==> u in ts && u != t
    decreases |ts|
  {
    if |ts| > 0 {
      WithoutMembers(ts[1..], t);
      assert ts == [ts[0]] + ts[1..];
    }
  }

  /** Removing the only tag a run holds leaves nothing. */
  lemma {:induction false} WithoutOnly(ts: seq<Tag>, t: Tag)
    requires forall u :: u in ts ==> u == t
    ensures Without(ts, t) == []
    decreases |ts|
  {
    if |ts| > 0 {
      assert ts[0] in ts;
      assert forall u :: u in ts[1..] ==> u in ts;
      WithoutOnly(ts[1..], t);
    }
  }

  /** Removing a tag a run does not hold changes nothing. */
  lemma {:induction false} WithoutAbsent(ts: seq<Tag>, t: Tag)
    requires t !in ts
    ensures Without(ts, t) == ts
    decreases |ts|
  {
    if |ts| > 0 {
      assert ts[0] != t;
      WithoutAbsent(ts[1..], t);
      assert [ts[0]] + ts[1..] == ts;
    }
  }

  /** A name without '[' (a grasp type or an object name) holds no tag. */
  predicate Untagged(s: string) {
    '[' !in s
  }

  /** Every tag opens with '[' and has no other '['; two different tags differ at their second character. */
  lemma TagShape(t: Tag, p: Tag)
    ensures |TagText(t)| >= 2 && TagText(t)[0] == '[' && Untagged(TagText(t)[1..])
    ensures t != p ==> TagText(t)[1] != TagText(p)[1]
  {
  }

  /** Removing the tag p from a tag followed by more text acts on that tag alone. */
  lemma RemoveAtTag(t: Tag, rest: string, p: Tag)
    ensures ReplaceAll(TagText(t) + rest, TagText(p), "")
            == (if t == p then "" else TagText(t)) + ReplaceAll(rest, TagText(p), "")
  {
    var q := TagText(p);
    var tt := TagText(t);
    TagShape(t, p);
    if t == p {
      ReplaceAllAtPrefix(q, rest, "");
    } else {
      var s := tt + rest;
      DisagreementNotPrefix(q, s, 1);
      assert s[1..] == tt[1..] + rest;
      ReplaceAllSkipsPrefix(tt[1..], rest, q, "");
      AppendAssociative([tt[0]], tt[1..], ReplaceAll(rest, q, ""));
      assert [tt[0]] + tt[1..] == tt;
    }
  }

  /** The tag p occurs in a tag followed by more text when it is that tag or occurs in the rest. */
  lemma ContainsAtTag(t: Tag, rest: string, p: Tag)
    ensures Contains(TagText(t) + rest, TagText(p)) <==> t == p || Contains(rest, TagText(p))
  {
    var q := TagText(p);
    var tt := TagText(t);
    var s := tt + rest;
    TagShape(t, p);
    if t == p {
      assert s[..|q|] == q;
    } else {
      DisagreementNotPrefix(q, s, 1);
      assert s[1..] == tt[1..] + rest;
      ContainsSkipsPrefix(tt[1..], rest, q);
    }
  }

  /** Replacing a tag by nothing in a run of tags drops exactly the copies of that tag. */
  lemma {:induction false} RemoveFromTags(ts: seq<Tag>, p: Tag)
    ensures ReplaceAll(TagsText(ts), TagText(p), "") == TagsText(Without(ts, p))
    decreases |ts|
  {
    if |ts| > 0 {
      RemoveAtTag(ts[0], TagsText(ts[1..]), p);
      RemoveFromTags(ts[1..], p);
    }
  }

  /** A run of tags contains the tag p exactly when p is one of them. */
  lemma {:induction false} ContainsInTags(ts: seq<Tag>, p: Tag)
    ensures Contains(TagsText(ts), TagText(p)) <==> p in ts
    decreases |ts|
  {
    if |ts| == 0 {
      assert !IsPrefix(TagText(p), "");
    } else {
      ContainsAtTag(ts[0], TagsText(ts[1..]), p);
      ContainsInTags(ts[1..], p);
      assert ts == [ts[0]] + ts[1..];
    }
  }

  /** A tagged name: removing the tag p keeps the untagged base and the other tags. */
  lemma RemoveFromTaggedName(base: string, ts: seq<Tag>, p: Tag)
    requires Untagged(base)
    ensures ReplaceAll(base + TagsText(ts), TagText(p), "") == base + TagsText(Without(ts, p))
  {
    TagShape(p, p);
    ReplaceAllSkipsPrefix(base, TagsText(ts), TagText(p), "");
    RemoveFromTags(ts, p);
  }

  /** A tagged name contains the tag p exactly when p is one of its tags. */
  lemma ContainsInTaggedName(base: string, ts: seq<Tag>, p: Tag)
    requires Untagged(base)
    ensures Contains(base + TagsText(ts), TagText(p)) <==> p in ts
  {
    TagShape(p, p);
    ContainsSkipsPrefix(base, TagsText(ts), TagText(p));
    ContainsInTags(ts, p);
  }

  // ---------------------------------------------------------------------------
  // Grasp names

  /** Both labelers remove "[nops]", "[usd]" and "[susd]", in that order, from the grasp child's name. */
  function StripFlagTags(name: string): string {
    ReplaceAll(ReplaceAll(ReplaceAll(name, TagText(Nops), ""), TagText(Usd), ""), TagText(Susd), "")
  }

  /** The side of the object the grasp is for. */
  datatype Side = NoSide | LeftSide | RightSide

  /** The side as the annotation writes it. */
  function SideName(s: Side): string {
    match s
    case NoSide => "none"
    case LeftSide => "left"
    case RightSide => "right"
  }

  /** What the data-collection labeler reads from a grasp child's name. */
  datatype ParsedGrasp = ParsedGrasp(graspType: string, side: Side, noPronationSupination: bool,
                                     upsideDown: bool, samplingUpsideDown: bool)

  /**
   * The data-collection labeler: the three flags are read from the raw name and their tags
   * removed; then "[left]" is looked for first, "[right]" second, and only the tag found is
   * removed.
   */
  function ParseGraspName(name: string): ParsedGrasp {
    var stripped := StripFlagTags(name);
    var nops := Contains(name, TagText(Nops));
    var usd := Contains(name, TagText(Usd));
    var susd := Contains(name, TagText(Susd));
    if Contains(stripped, TagText(Left)) then ParsedGrasp(ReplaceAll(stripped, TagText(Left), ""), LeftSide, nops, usd, susd)
    else if Contains(stripped, TagText(Right)) then ParsedGrasp(ReplaceAll(stripped, TagText(Right), ""), RightSide, nops, usd, susd)
    else ParsedGrasp(stripped, NoSide, nops, usd, susd)
  }

  /** The tags of ts other than the three flag tags: the laterality tags, in order. */
  function SideTags(ts: seq<Tag>): seq<Tag> {
    Without(Without(Without(ts, Nops), Usd), Susd)
  }

  /** The laterality tags the data-collection labeler leaves in the grasp type: a "[right]" that follows a "[left]". */
  function LeftoverTags(ts: seq<Tag>): seq<Tag> {
    if Left in ts then Without(SideTags(ts), Left) else []
  }

  lemma SideTagsMembers(ts: seq<Tag>)
    ensures forall u :: u in SideTags(ts) <==> u in ts && (u == Left || u == Right)
  {
    WithoutMembers(ts, Nops);
    WithoutMembers(Without(ts, Nops), Usd);
    WithoutMembers(Without(Without(ts, Nops), Usd), Susd);
  }

  /** Only a "[right]" can be left over, and only when the name carries both laterality tags. */
  lemma LeftoverTagsMembers(ts: seq<Tag>)
    ensures forall u :: u in LeftoverTags(ts) <==> u == Right && Left in ts && Right in ts
    ensures LeftoverTags(ts) == [] <==> !(Left in ts && Right in ts)
  {
    SideTagsMembers(ts);
    WithoutMembers(SideTags(ts), Left);
    var x := LeftoverTags(ts);
    if Left in ts && Right in ts {
      assert Right in x;
    } else if Left in ts {
      WithoutOnly(SideTags(ts), Left);
    }
  }

  /** Removing the three flag tags from a tagged name leaves the base and the laterality tags. */
  lemma StripFlagTagsOfTaggedName(base: string, ts: seq<Tag>)
    requires Untagged(base)
    ensures StripFlagTags(base + TagsText(ts)) == base + TagsText(SideTags(ts))
  {
    RemoveFromTaggedName(base, ts, Nops);
    RemoveFromTaggedName(base, Without(ts, Nops), Usd);
    RemoveFromTaggedName(base, Without(Without(ts, Nops), Usd), Susd);
  }

  /** The flags are read off the raw name: each is set exactly when its tag is among the name's tags. */
  lemma ParseTaggedFlags(base: string, ts: seq<Tag>)
    requires Untagged(base)
    ensures var r := ParseGraspName(base + TagsText(ts));
            r.noPronationSupination == (Nops in ts) && r.upsideDown == (Usd in ts) && r.samplingUpsideDown == (Susd in ts)
  {
    ContainsInTaggedName(base, ts, Nops);
    ContainsInTaggedName(base, ts, Usd);
    ContainsInTaggedName(base, ts, Susd);
  }

  /** The side and the grasp type of a tagged name, "[left]" winning over "[right]". */
  lemma ParseTaggedSide(base: string, ts: seq<Tag>)
    requires Untagged(base)
    ensures var r := ParseGraspName(base + TagsText(ts));
            r.side == (if Left in ts then LeftSide else if Right in ts then RightSide else NoSide) &&
            r.graspType == base + TagsText(LeftoverTags(ts))
  {
    var side := SideTags(ts);
    StripFlagTagsOfTaggedName(base, ts);
    assert StripFlagTags(base + TagsText(ts)) == base + TagsText(side);
    SideTagsMembers(ts);
    ContainsInTaggedName(base, side, Left);
    ContainsInTaggedName(base, side, Right);
    if Left in ts {
      RemoveFromTaggedName(base, side, Left);
    } else if Right in ts {
      RemoveFromTaggedName(base, side, Right);
      WithoutOnly(side, Right);
      assert TagsText([]) == "" && base + "" == base;
    } else {
      WithoutOnly(side, Left);
      WithoutAbsent(side, Left);
      assert TagsText([]) == "" && base + "" == base;
    }
  }

  /**
   * Parsing a name written as an untagged grasp type followed by tags, in any order, gives
   * back the grasp type, the three flags and the side, "[left]" winning over "[right]". A
   * "[right]" that comes with a "[left]" stays in the grasp type.
   */
  lemma ParseTaggedName(base: string, ts: seq<Tag>)
    requires Untagged(base)
    ensures var r := ParseGraspName(base + TagsText(ts));
            r.noPronationSupination == (Nops in ts) && r.upsideDown == (Usd in ts) &&
            r.samplingUpsideDown == (Susd in ts) &&
            r.side == (if Left in ts then LeftSide else if Right in ts then RightSide else NoSide) &&
            r.graspType == base + TagsText(LeftoverTags(ts))
  {
    ParseTaggedFlags(base, ts);
    ParseTaggedSide(base, ts);
  }

  /** A name with no tag is its own grasp type, with no flag and no side. */
  lemma ParseUntaggedName(base: string)
    requires Untagged(base)
    ensures ParseGraspName(base) == ParsedGrasp(base, NoSide, false, false, false)
  {
    ParseTaggedName(base, []);
    assert base + TagsText([]) == base;
  }

  /** The older labeler removes the flag tags only: the laterality tags stay, in order, in the grasp type. */
  lemma LegacyKeepsSideTags(base: string, ts: seq<Tag>)
    requires Untagged(base)
    ensures StripFlagTags(base + TagsText(ts)) == base + TagsText(SideTags(ts))
    ensures forall u :: u in SideTags(ts) <==> u in ts && (u == Left || u == Right)
  {
    StripFlagTagsOfTaggedName(base, ts);
    SideTagsMembers(ts);
  }

  // ---------------------------------------------------------------------------
  // Instance and texture names

  /** `objInScene.name.Replace("(Clone)", "")`. */
  function InstanceOf(objectName: string): string {
    ReplaceAll(objectName, "(Clone)", "")
  }

  /** A pooled instance of a prefab whose name has no '(' is labelled with the prefab's name. */
  lemma InstanceOfClone(prefab: string)
    requires '(' !in prefab
    ensures InstanceOf(prefab + "(Clone)") == prefab
  {
    ReplaceAllSkipsPrefix(prefab, "(Clone)", "(Clone)", "");
    ReplaceAllAtPrefix("(Clone)", "", "");
    assert "(Clone)" + "" == "(Clone)";
    assert prefab + "" == prefab;
  }

  const InstanceSuffix: string := " (Instance)"

  /** The name of an untouched material, as the texture label "Original". */
  predicate IsOriginalMaterial(t: string) {
    t == "material_0" || t == "material0"
  }

  /**
   * The texture label of a renderer's material name. The data-collection labeler removes
   * " (Instance)" first and then maps "material_0" and "material0" to "Original"; the older
   * labeler maps "material_0 (Instance)" and "material0 (Instance)" first and then removes
   * " (Instance)".
   */
  function TextureName(labeler: Labeler, material: string): string {
    match labeler
    case DataCollectionLabeler =>
      var t := ReplaceAll(material, InstanceSuffix, "");
      if IsOriginalMaterial(t) then "Original" else t
    case LegacyLabeler =>
      var t := if material == "material_0 (Instance)" || material == "material0 (Instance)" then "Original" else material;
      ReplaceAll(t, InstanceSuffix, "")
  }

  /** The instance suffix comes off a material name that has no blank of its own. */
  lemma RemoveInstanceSuffix(t: string)
    requires ' ' !in t
    ensures ReplaceAll(t + InstanceSuffix, InstanceSuffix, "") == t
  {
    ReplaceAllSkipsPrefix(t, InstanceSuffix, InstanceSuffix, "");
    ReplaceAllAtPrefix(InstanceSuffix, "", "");
    assert InstanceSuffix + "" == InstanceSuffix;
    assert t + "" == t;
  }

  /** The older labeler's two full names of the untouched material are those names with the suffix. */
  lemma OriginalInstanceNames(t: string)
    ensures IsOriginalMaterial(t) <==> t + InstanceSuffix == "material_0 (Instance)" || t + InstanceSuffix == "material0 (Instance)"
  {
    var s := t + InstanceSuffix;
    if s == "material_0 (Instance)" || s == "material0 (Instance)" {
      assert t == s[..|t|];
    }
  }

  /** No blank in a name means no " (Instance)" in it either. */
  lemma NoInstanceSuffix(t: string)
    requires ' ' !in t
    ensures ReplaceAll(t, InstanceSuffix, "") == t
  {
    assert InstanceSuffix[0] == ' ';
    MissingCharNotContained(t, InstanceSuffix, ' ');
    ReplaceAllWithoutOccurrence(t, InstanceSuffix, "");
  }

  /**
   * For a material instance whose own name has no blank, both labelers give the same
   * label: "Original" for the untouched material, the material's name otherwise.
   */
  lemma TextureNameOfInstance(t: string)
    requires ' ' !in t
    ensures TextureName(DataCollectionLabeler, t + InstanceSuffix) == (if IsOriginalMaterial(t) then "Original" else t)
    ensures TextureName(LegacyLabeler, t + InstanceSuffix) == (if IsOriginalMaterial(t) then "Original" else t)
  {
    RemoveInstanceSuffix(t);
    OriginalInstanceNames(t);
    NoInstanceSuffix("Original");
  }

  /**
   * On a material name without " (Instance)" (no blank at all), the older labeler reports the
   * name itself and the data-collection labeler maps the untouched material to "Original":
   * the two labelers part ways exactly on the bare "material_0" and "material0".
   */
  lemma TextureNameOfBareMaterial(m: string)
    requires ' ' !in m
    ensures TextureName(DataCollectionLabeler, m) == (if IsOriginalMaterial(m) then "Original" else m)
    ensures TextureName(LegacyLabeler, m) == m
    ensures TextureName(DataCollectionLabeler, m) == TextureName(LegacyLabeler, m) <==> !IsOriginalMaterial(m)
  {
    NoInstanceSuffix(m);
  }

  // ---------------------------------------------------------------------------
  // Dictionaries

  /** `instance2object` (the same in both labelers); "pencil" is mapped to "smalll_tool" as written. */
  const InstanceToObject: map<string, string> := map[
    "pitcher" := "dispenser", "mustard" := "dispenser", "red_plate" := "plate",
    "abrasive_sponge" := "sponge", "pringles" := "tube", "meat_can" := "can", "red_mug" := "mug",
    "hammer" := "big_tool", "plum" := "small_ball", "baseball_ball" := "big_ball", "ball" := "big_ball",
    "spoon" := "small_tool", "marker" := "small_tool", "red_cube" := "small_cube",
    "book" := "book", "book_opened" := "book", "bottle" := "dispenser", "bottle_prescription" := "dispenser",
    "cap" := "small_tool", "cap_2" := "small_tool", "cap_3" := "small_tool", "eraser" := "small_tool",
    "eraser_2" := "small_tool", "flashdrive" := "small_tool", "highlighter" := "small_tool",
    "notebook" := "book", "oriental_gadget" := "small_tool", "paintbrush" := "big_tool",
    "paintbrush_thin" := "small_tool", "paper_airplane" := "small_tool", "paper_punch" := "small_tool",
    "pen" := "small_tool", "pen_thin" := "small_tool", "pencil" := "smalll_tool", "pendrive" := "small_tool",
    "scotch" := "small_tool", "sharpner" := "small_tool", "tape_duct" := "small_tool",
    "toothbrush" := "small_tool", "wallet_closed" := "wallet", "wallet_opened" := "wallet"]

  /** `graspType2preshape` of the data-collection labeler: untagged grasp types only. */
  const GraspTypeToPreshape: map<string, string> := map[
    "adducted_thumb" := "lateral_no3", "large_diameter" := "power_no3", "small_diameter" := "power_no3",
    "medium_wrap" := "power_no3", "sphere_4fingers" := "power_no3", "power_sphere" := "power_no3",
    "prismatic_4fingers" := "pinch_no3", "tripod" := "pinch_3", "prismatic_2fingers" := "pinch_3",
    "precision_sphere" := "pinch_no3", "tip_pinch" := "pinch_3"]

  /** `graspType2preshape` of the older labeler: three grasp types also appear with a laterality tag. */
  const LegacyGraspTypeToPreshape: map<string, string> := map[
    "adducted_thumb[left]" := "lateral_no3[left]", "adducted_thumb[right]" := "lateral_no3[right]",
    "adducted_thumb" := "lateral_no3",
    "large_diameter[left]" := "power_no3[left]", "large_diameter[right]" := "power_no3[right]",
    "large_diameter" := "power_no3", "small_diameter" := "power_no3",
    "medium_wrap[left]" := "power_no3[left]", "medium_wrap[right]" := "power_no3[right]",
    "medium_wrap" := "power_no3", "sphere_4fingers" := "power_no3", "power_sphere" := "power_no3",
    "prismatic_4fingers" := "pinch_no3", "precision_sphere" := "pinch_no3", "tripod" := "pinch_no3",
    "prismatic_2fingers" := "pinch_3", "tip_pinch" := "pinch_3"]

  function PreshapeTable(labeler: Labeler): map<string, string> {
    match labeler
    case DataCollectionLabeler => GraspTypeToPreshape
    case LegacyLabeler => LegacyGraspTypeToPreshape
  }

  /** A dictionary read: the value, or the missing key (a `KeyNotFoundException`). */
  function Lookup(m: map<string, string>, key: string): Result<string, string> {
    if key in m then Ok(m[key]) else Err(key)
  }

  /** The data-collection dictionary knows no tagged grasp type, so a name whose side tag is not removed fails. */
  lemma PreshapeKeysUntagged()
    ensures forall k :: k in GraspTypeToPreshape ==> Untagged(k)
  {
  }

  /**
   * In the older dictionary a grasp type with a side tag maps to the preshape of the
   * untagged grasp type carrying the same tag.
   */
  lemma LegacyPreshapeKeepsSide(g: string, t: Tag)
    requires t == Left || t == Right
    requires g + TagText(t) in LegacyGraspTypeToPreshape
    ensures g in LegacyGraspTypeToPreshape
    ensures LegacyGraspTypeToPreshape[g + TagText(t)] == LegacyGraspTypeToPreshape[g] + TagText(t)
  {
    var k := g + TagText(t);
    assert k[|g|] == '[';
    LegacyTaggedKeys(k);
    var base, side := SplitTaggedKey(k);
    TaggedUnique(g, t, base, side);
    LegacySideEntry(base, side);
  }

  /** The keys of the older dictionary that carry a tag: three grasp types, each with either side. */
  lemma LegacyTaggedKeys(k: string)
    requires k in LegacyGraspTypeToPreshape && !Untagged(k)
    ensures k in SideTaggedKeys
  {
    if k in GraspTypeToPreshape {
      PreshapeKeysUntagged();
      assert false;
    }
    LegacyOnlyKeysTagged(k);
  }

  const SideTaggedTypes: set<string> := {"adducted_thumb", "large_diameter", "medium_wrap"}

  const SideTaggedKeys: set<string> := {"adducted_thumb[left]", "adducted_thumb[right]", "large_diameter[left]",
                                        "large_diameter[right]", "medium_wrap[left]", "medium_wrap[right]"}

  /** Each side-tagged key is one of the three grasp types followed by a side tag. */
  lemma SplitTaggedKey(k: string) returns (base: string, side: Tag)
    requires k in SideTaggedKeys
    ensures base in SideTaggedTypes && (side == Left || side == Right) && k == base + TagText(side)
  {
    if k == "adducted_thumb[left]" || k == "adducted_thumb[right]" {
      base := "adducted_thumb";
    } else if k == "large_diameter[left]" || k == "large_diameter[right]" {
      base := "large_diameter";
    } else {
      base := "medium_wrap";
    }
    side := if k in {"adducted_thumb[left]", "large_diameter[left]", "medium_wrap[left]"} then Left else Right;
    SideEntryKey(base, side);
  }

  /** The side-tagged entries of the older dictionary, one grasp type at a time. */
  lemma LegacySideEntry(base: string, side: Tag)
    requires base in SideTaggedTypes && (side == Left || side == Right)
    ensures base in LegacyGraspTypeToPreshape && base + TagText(side) in LegacyGraspTypeToPreshape
    ensures LegacyGraspTypeToPreshape[base + TagText(side)] == LegacyGraspTypeToPreshape[base] + TagText(side)
  {
    SideEntryKey(base, side);
    if base == "adducted_thumb" {
      AdductedThumbEntries();
    } else if base == "large_diameter" {
      LargeDiameterEntries();
    } else {
      MediumWrapEntries();
    }
  }

  /** The key of a side-tagged grasp type, spelled out. */
  lemma SideEntryKey(base: string, side: Tag)
    requires base in SideTaggedTypes && (side == Left || side == Right)
    ensures base + TagText(side) == base + (if side == Left then "[left]" else "[right]")
  {
  }

  lemma AdductedThumbEntries()
    ensures var m := LegacyGraspTypeToPreshape;
            "adducted_thumb" in m && "adducted_thumb" + "[left]" in m && "adducted_thumb" + "[right]" in m &&
            m["adducted_thumb" + "[left]"] == m["adducted_thumb"] + "[left]" &&
            m["adducted_thumb" + "[right]"] == m["adducted_thumb"] + "[right]"
  {
    assert "adducted_thumb" + "[left]" == "adducted_thumb[left]";
    assert "adducted_thumb" + "[right]" == "adducted_thumb[right]";
  }

  lemma LargeDiameterEntries()
    ensures var m := LegacyGraspTypeToPreshape;
            "large_diameter" in m && "large_diameter" + "[left]" in m && "large_diameter" + "[right]" in m &&
            m["large_diameter" + "[left]"] == m["large_diameter"] + "[left]" &&
            m["large_diameter" + "[right]"] == m["large_diameter"] + "[right]"
  {
    assert "large_diameter" + "[left]" == "large_diameter[left]";
    assert "large_diameter" + "[right]" == "large_diameter[right]";
  }

  lemma MediumWrapEntries()
    ensures var m := LegacyGraspTypeToPreshape;
            "medium_wrap" in m && "medium_wrap" + "[left]" in m && "medium_wrap" + "[right]" in m &&
            m["medium_wrap" + "[left]"] == m["medium_wrap"] + "[left]" &&
            m["medium_wrap" + "[right]"] == m["medium_wrap"] + "[right]"
  {
    assert "medium_wrap" + "[left]" == "medium_wrap[left]";
    assert "medium_wrap" + "[right]" == "medium_wrap[right]";
  }

  /** A grasp type with one tag appended determines the untagged type and the tag. */
  lemma TaggedUnique(g: string, t: Tag, base: string, u: Tag)
    requires Untagged(base) && g + TagText(t) == base + TagText(u)
    ensures g == base && t == u
  {
    var k := g + TagText(t);
    TagShape(t, u);
    TagShape(u, t);
    assert g == k[..|g|] && base == k[..|base|];
    assert TagText(t)[1] == k[|g| + 1] == TagText(u)[1];
  }

  /**
   * The untagged part of the older dictionary has the same grasp types as the newer one,
   * and the two give the same preshape to every grasp type except the tripod, a
   * three-finger pinch only in the newer one.
   */
  lemma PreshapeTablesAgree(g: string)
    ensures g in GraspTypeToPreshape <==> g in LegacyGraspTypeToPreshape && Untagged(g)
    ensures g in GraspTypeToPreshape ==>
              (GraspTypeToPreshape[g] == LegacyGraspTypeToPreshape[g] <==> g != "tripod")
  {
    if g in LegacyGraspTypeToPreshape && g !in GraspTypeToPreshape {
      LegacyOnlyKeysTagged(g);
    }
  }

  /** The grasp types only the older dictionary knows are the side-tagged ones. */
  lemma LegacyOnlyKeysTagged(g: string)
    requires g in LegacyGraspTypeToPreshape && g !in GraspTypeToPreshape
    ensures g in SideTaggedKeys && !Untagged(g)
  {
  }
}
