// Naming rules of the two dataset conversion scripts: which capture file is
// opened, how the view label is normalised, where a frame is moved, what the
// sequence directories and metadata directories are called, and the one line
// written to data.log. All of it is pure string computation; the directory
// state the scripts consult lives in DatasetConvert.

module DatasetNaming {
  import opened Wrappers
  import opened Text

  /** The two copies of the conversion script. */
  datatype Script =
    | CollectionScript      // python_scripts/Data_collection
    | PostProcessingScript  // Assets/Scripts/Data_collection/PostProcessing_dataset

  const GraspTypeModel: string := "GraspTypeAnnotationDefinition"
  const WristView: string := "Wrist"
  const WristD435: string := "Wrist_d435"

  /** Every way a conversion run stops with an exception. */
  datatype ConvertError =
    | NotLaunchedFromScriptFolder
    | DatasetFolders(found: nat)
    | RgbFolders(found: nat)
    | MissingCapturesFile(path: string)
    | UnexpectedView(view: string)
    | NoGraspAnnotation
    | UnboundLabels
    | NotADirectory(path: string)
    | DirectoryExists(path: string)
    | MissingDestination(path: string)

  // ---------------------------------------------------------------------------
  // Folder checks (collection script only)

  /**
   * The script must be started from its own folder, next to exactly one
   * Dataset* folder and exactly one RGB* folder; the checks run in that order.
   */
  function CheckFolders(launchDir: string, scriptDir: string, datasetFolders: nat, rgbFolders: nat)
    : (r: Option<ConvertError>)
    ensures r == None <==> launchDir == scriptDir && datasetFolders == 1 && rgbFolders == 1
    ensures launchDir != scriptDir ==> r == Some(NotLaunchedFromScriptFolder)
    ensures launchDir == scriptDir && datasetFolders != 1 ==> r == Some(DatasetFolders(datasetFolders))
  {
    if launchDir != scriptDir then Some(NotLaunchedFromScriptFolder)
    else if datasetFolders != 1 then Some(DatasetFolders(datasetFolders))
    else if rgbFolders != 1 then Some(RgbFolders(rgbFolders))
    else None
  }

  // ---------------------------------------------------------------------------
  // Capture files

  /** `'captures_' + str(i).zfill(3) + '.json'`. */
  function CapturesFileName(i: nat): string {
    "captures_" + ZFill(NatToString(i), 3) + ".json"
  }

  /** The index can be read back from the digits between the prefix and ".json". */
  lemma CapturesFileNameIndex(i: nat)
    ensures var name := CapturesFileName(i);
      |name| >= 17 && name[..9] == "captures_" && name[|name| - 5..] == ".json"
      && AllDigits(name[9..|name| - 5]) && DigitsValue(name[9..|name| - 5]) == i
  {
    var d := ZFill(NatToString(i), 3);
    var name := CapturesFileName(i);
    ZFillValue(i, 3);
    assert name == "captures_" + d + ".json";
    assert name[9..|name| - 5] == d;
  }

  lemma CapturesFileNamesDistinct(i: nat, j: nat)
    requires i != j
    ensures CapturesFileName(i) != CapturesFileName(j)
  {
    CapturesFileNameIndex(i);
    CapturesFileNameIndex(j);
  }

  /**
   * The file opened in round i: the globbed path `folder/file` with every
   * occurrence of its base name replaced by the i-th captures name. The glob
   * pattern `captures*.json` guarantees a non-empty base name.
   */
  function OpenedCapturesFile(folder: string, file: string, i: nat): string
    requires |file| > 0
  {
    ReplaceAll(folder + "/" + file, file, CapturesFileName(i))
  }

  /**
   * Whatever order glob returned the files in, round i opens
   * captures_<i, three digits>.json in the same folder (as long as the folder
   * name does not itself contain the globbed base name).
   */
  lemma CapturesOpenedInIndexOrder(folder: string, file: string, i: nat)
    requires |file| > 0 && '/' !in file && !Contains(folder, file)
    ensures OpenedCapturesFile(folder, file, i) == folder + "/" + CapturesFileName(i)
  {
    var n := CapturesFileName(i);
    ReplaceAllAcrossSeparator(folder, '/', file, file, n);
    ReplaceAllWithoutOccurrence(folder, file, n);
    ReplaceAllWhole(file, n);
  }

  // ---------------------------------------------------------------------------
  // View normalisation

  /**
   * The view label as the output path uses it. The collection script strips it
   * and accepts only "Wrist"; the post-processing script does not strip and
   * also keeps "Wrist_d435". Anything else is the rejected value.
   */
  function NormaliseView(script: Script, view: string): Result<string, string> {
    match script
    case CollectionScript =>
      var v := Strip(view);
      if v == WristView then Ok(WristD435) else Err(v)
    case PostProcessingScript =>
      if view == WristView then Ok(WristD435)
      else if view == WristD435 then Ok(view)
      else Err(view)
  }

  /** An accepted view always becomes "Wrist_d435", and which views are accepted. */
  lemma NormalisedViews(script: Script, view: string)
    ensures NormaliseView(script, view).Ok? ==> NormaliseView(script, view).value == WristD435
    ensures script == CollectionScript ==>
      (NormaliseView(script, view).Ok? <==> Strip(view) == WristView)
    ensures script == PostProcessingScript ==>
      (NormaliseView(script, view).Ok? <==> view == WristView || view == WristD435)
  {
  }

  /**
   * The collection script rejects "Wrist_d435", the view name the newer labeler
   * reports by default, which the post-processing script keeps.
   */
  lemma CollectionRejectsD435()
    ensures NormaliseView(CollectionScript, WristD435) == Err(WristD435)
  {
    StripTrimmed(WristD435);
  }

  /**
   * The collection script accepts "Wrist" with any whitespace around it, Unicode spaces
   * included, while the post-processing script rejects it unless nothing surrounds it.
   */
  lemma PaddedWristView(pre: string, post: string)
    requires forall k :: 0 <= k < |pre| ==> IsSpace(pre[k])
    requires forall k :: 0 <= k < |post| ==> IsSpace(post[k])
    ensures NormaliseView(CollectionScript, pre + WristView + post) == Ok(WristD435)
    ensures NormaliseView(PostProcessingScript, pre + WristView + post).Ok? <==> pre == [] && post == []
  {
    StripPadded(pre, WristView, post);
    var v := pre + WristView + post;
    if pre != [] {
      assert IsSpace(v[0]) && !IsSpace(WristView[0]) && !IsSpace(WristD435[0]);
    } else if post != [] {
      assert |v| > |WristView| && IsSpace(v[|WristView|]) && !IsSpace(WristD435[|WristView|]);
    } else {
      assert v == WristView;
    }
  }

  // ---------------------------------------------------------------------------
  // Grasp annotation of a frame

  /** The values of a grasp type annotation. */
  datatype LabelFields = LabelFields(
    objectName: string, instanceName: string, preshape: string, graspType: string, view: string)

  datatype Annotation = Annotation(modelType: string, values: LabelFields)

  /**
   * The annotation loop: every grasp type annotation overwrites the label
   * variables and has its view normalised; the first rejected view stops the
   * scan. `found` is what the variables held before the loop.
   */
  function ScanAnnotations(script: Script, anns: seq<Annotation>, found: Option<LabelFields>)
    : Result<Option<LabelFields>, string>
    decreases |anns|
  {
    if |anns| == 0 then Ok(found)
    else if anns[0].modelType != GraspTypeModel then ScanAnnotations(script, anns[1..], found)
    else match NormaliseView(script, anns[0].values.view)
      case Err(v) => Err(v)
      case Ok(v) => ScanAnnotations(script, anns[1..], Some(anns[0].values.(view := v)))
  }

  /** Without a grasp type annotation the variables keep what they held. */
  lemma {:induction false} ScanWithoutGraspAnnotation(script: Script, anns: seq<Annotation>, found: Option<LabelFields>)
    requires forall j :: 0 <= j < |anns| ==> anns[j].modelType != GraspTypeModel
    ensures ScanAnnotations(script, anns, found) == Ok(found)
    decreases |anns|
  {
    if |anns| > 0 {
      ScanWithoutGraspAnnotation(script, anns[1..], found);
    }
  }

  /** The values of an accepted grasp annotation with its view normalised. */
  function Normalised(script: Script, a: Annotation): LabelFields
    requires NormaliseView(script, a.values.view).Ok?
  {
    a.values.(view := NormaliseView(script, a.values.view).value)
  }

  /**
   * When every grasp annotation has an accepted view, the last one wins (and its
   * view is "Wrist_d435", by NormalisedViews).
   */
  lemma {:induction false} ScanKeepsLast(script: Script, anns: seq<Annotation>, found: Option<LabelFields>, k: nat)
    requires k < |anns| && anns[k].modelType == GraspTypeModel && NormaliseView(script, anns[k].values.view).Ok?
    requires forall j :: k < j < |anns| ==> anns[j].modelType != GraspTypeModel
    requires forall j :: 0 <= j < k ==> Accepted(script, anns[j])
    ensures ScanAnnotations(script, anns, found) == Ok(Some(Normalised(script, anns[k])))
    decreases |anns|
  {
    var rest := anns[1..];
    if k == 0 {
      ScanStep(script, anns, found);
      forall j | 0 <= j < |rest| ensures rest[j].modelType != GraspTypeModel {
        assert rest[j] == anns[j + 1];
      }
      ScanWithoutGraspAnnotation(script, rest, Some(Normalised(script, anns[0])));
    } else {
      ScanStep(script, anns, found);
      assert rest[k - 1] == anns[k];
      forall j | k - 1 < j < |rest| ensures rest[j].modelType != GraspTypeModel {
        assert rest[j] == anns[j + 1];
      }
      forall j | 0 <= j < k - 1 ensures Accepted(script, rest[j]) {
        assert rest[j] == anns[j + 1];
      }
      ScanKeepsLast(script, rest, NextFound(script, anns[0], found), k - 1);
    }
  }

  /** A grasp type annotation's view is one the script accepts; other annotations are ignored. */
  predicate Accepted(script: Script, a: Annotation) {
    a.modelType == GraspTypeModel ==> NormaliseView(script, a.values.view).Ok?
  }

  /** What the label variables hold after an annotation the scan goes past. */
  function NextFound(script: Script, a: Annotation, found: Option<LabelFields>): Option<LabelFields> {
    if a.modelType != GraspTypeModel then found
    else match NormaliseView(script, a.values.view)
      case Ok(v) => Some(a.values.(view := v))
      case Err(_) => found
  }

  /** One step of the scan over an accepted annotation. */
  lemma ScanStep(script: Script, anns: seq<Annotation>, found: Option<LabelFields>)
    requires |anns| > 0 && Accepted(script, anns[0])
    ensures ScanAnnotations(script, anns, found) == ScanAnnotations(script, anns[1..], NextFound(script, anns[0], found))
    ensures anns[0].modelType == GraspTypeModel ==> NextFound(script, anns[0], found) == Some(Normalised(script, anns[0]))
  {
  }

  /** The first grasp annotation with a rejected view stops the scan with that view. */
  lemma {:induction false} ScanRejectsFirstBadView(script: Script, anns: seq<Annotation>, found: Option<LabelFields>, k: nat)
    requires k < |anns| && anns[k].modelType == GraspTypeModel
    requires NormaliseView(script, anns[k].values.view).Err?
    requires forall j :: 0 <= j < k ==> Accepted(script, anns[j])
    ensures ScanAnnotations(script, anns, found) == Err(NormaliseView(script, anns[k].values.view).error)
    decreases |anns|
  {
    if k > 0 {
      var rest := anns[1..];
      ScanStep(script, anns, found);
      assert rest[k - 1] == anns[k];
      forall j | 0 <= j < k - 1 ensures Accepted(script, rest[j]) {
        assert rest[j] == anns[j + 1];
      }
      ScanRejectsFirstBadView(script, rest, NextFound(script, anns[0], found), k - 1);
    }
  }

  /** A scan that starts from normalised labels ends with normalised labels. */
  lemma {:induction false} ScanNormalises(script: Script, anns: seq<Annotation>, found: Option<LabelFields>)
    requires found.Some? ==> found.value.view == WristD435
    ensures ScanAnnotations(script, anns, found).Ok? && ScanAnnotations(script, anns, found).value.Some?
      ==> ScanAnnotations(script, anns, found).value.value.view == WristD435
    decreases |anns|
  {
    if |anns| > 0 {
      if anns[0].modelType != GraspTypeModel {
        ScanNormalises(script, anns[1..], found);
      } else if NormaliseView(script, anns[0].values.view).Ok? {
        NormalisedViews(script, anns[0].values.view);
        ScanNormalises(script, anns[1..], Some(Normalised(script, anns[0])));
      }
    }
  }

  /**
   * The labels a frame is filed under. The collection script starts each frame
   * with no labels and raises when none is found; the post-processing script
   * starts from the variables left by earlier frames and fails only when no
   * frame has ever set them.
   */
  function FrameLabels(script: Script, anns: seq<Annotation>, carried: Option<LabelFields>)
    : Result<LabelFields, ConvertError>
  {
    var start := if script == CollectionScript then None else carried;
    match ScanAnnotations(script, anns, start)
    case Err(v) => Err(UnexpectedView(v))
    case Ok(None) => Err(if script == CollectionScript then NoGraspAnnotation else UnboundLabels)
    case Ok(Some(f)) => Ok(f)
  }

  /** The labels a frame is filed under always name the view "Wrist_d435". */
  lemma FrameLabelsNormalised(script: Script, anns: seq<Annotation>, carried: Option<LabelFields>)
    requires carried.Some? ==> carried.value.view == WristD435
    ensures FrameLabels(script, anns, carried).Ok? ==> FrameLabels(script, anns, carried).value.view == WristD435
  {
    ScanNormalises(script, anns, if script == CollectionScript then None else carried);
  }

  /** A frame without grasp annotation: an error for one script, the old labels for the other. */
  lemma FrameWithoutGraspAnnotation(script: Script, anns: seq<Annotation>, carried: Option<LabelFields>)
    requires forall j :: 0 <= j < |anns| ==> anns[j].modelType != GraspTypeModel
    ensures script == CollectionScript ==> FrameLabels(script, anns, carried) == Err(NoGraspAnnotation)
    ensures script == PostProcessingScript && carried.Some? ==> FrameLabels(script, anns, carried) == Ok(carried.value)
    ensures script == PostProcessingScript && carried.None? ==> FrameLabels(script, anns, carried) == Err(UnboundLabels)
  {
    ScanWithoutGraspAnnotation(script, anns, if script == CollectionScript then None else carried);
  }

  // ---------------------------------------------------------------------------
  // Output paths

  /** base/object/instance/preshape/view, the folder of one view of one grasp. */
  function PartialPath(base: string, f: LabelFields): string {
    Join([base, f.objectName, f.instanceName, f.preshape, f.view], '/')
  }

  /** The path reads back as its five components when none holds a '/'. */
  lemma PartialPathFields(base: string, f: LabelFields)
    requires '/' !in base && '/' !in f.objectName && '/' !in f.instanceName
    requires '/' !in f.preshape && '/' !in f.view
    ensures Split(PartialPath(base, f), '/') == [base, f.objectName, f.instanceName, f.preshape, f.view]
  {
    SplitJoin([base, f.objectName, f.instanceName, f.preshape, f.view], '/');
  }

  const FirstSequenceDir: string := "rgb"

  /** The directory made at step 0 when the view folder already holds `count` entries. */
  function NewSequenceDir(count: nat): string {
    "rgb_" + ZFill(NatToString(count), 5)
  }

  /**
   * The directory frames are moved to when the view folder holds `count`
   * entries; with no entries `str(-1).zfill(5)` gives "-0001".
   */
  function CurrentSequenceDir(count: nat): string {
    if count == 1 then FirstSequenceDir
    else if count == 0 then "rgb_-0001"
    else NewSequenceDir(count - 1)
  }

  /** The directory of the k-th sequence (counting from 0) of one view folder. */
  function SequenceDir(k: nat): string {
    if k == 0 then FirstSequenceDir else NewSequenceDir(k)
  }

  /** The names of the first n sequence directories. */
  function SequenceDirs(n: nat): set<string> {
    set k: nat | k < n :: SequenceDir(k)
  }

  /** Sequence directories after the first are "rgb_" and at least five digits reading back as k. */
  lemma SequenceDirDigits(k: nat)
    requires k > 0
    ensures var d := SequenceDir(k)[4..];
      |SequenceDir(k)| >= 9 && SequenceDir(k) == "rgb_" + d && AllDigits(d) && DigitsValue(d) == k
  {
    ZFillValue(k, 5);
    assert SequenceDir(k)[4..] == ZFill(NatToString(k), 5);
  }

  lemma SequenceDirsDistinct(j: nat, k: nat)
    requires j != k
    ensures SequenceDir(j) != SequenceDir(k)
  {
    if j > 0 { SequenceDirDigits(j); }
    if k > 0 { SequenceDirDigits(k); }
  }

  /** There are exactly n of them, and the next one is new. */
  lemma {:induction false} SequenceDirsCount(n: nat)
    ensures |SequenceDirs(n)| == n
    ensures SequenceDir(n) !in SequenceDirs(n)
    ensures SequenceDirs(n + 1) == SequenceDirs(n) + {SequenceDir(n)}
  {
    forall k: nat | k < n ensures SequenceDir(k) != SequenceDir(n) {
      SequenceDirsDistinct(k, n);
    }
    if n == 0 {
      assert SequenceDirs(0) == {};
    } else {
      SequenceDirsCount(n - 1);
    }
  }

  /**
   * A view folder holding the first n sequence directories: step 0 creates
   * SequenceDir(n), and with n + 1 entries the frames go to SequenceDir(n), the
   * directory just created.
   */
  lemma FramesGoToNewestSequence(n: nat)
    ensures n > 0 ==> NewSequenceDir(n) == SequenceDir(n)
    ensures CurrentSequenceDir(n + 1) == SequenceDir(n)
  {
  }

  /** `str(step).zfill(8) + '.' + filename.split('.')[-1]`. */
  function FrameFileName(step: nat, filename: string): string {
    ZFill(NatToString(step), 8) + "." + LastField(filename, '.')
  }

  /** The frame name splits into at least eight digits reading back as the step and the extension. */
  lemma FrameFileNameParts(step: nat, filename: string)
    ensures var d := ZFill(NatToString(step), 8);
      Split(FrameFileName(step, filename), '.') == [d, LastField(filename, '.')]
      && |d| >= 8 && AllDigits(d) && DigitsValue(d) == step
  {
    var d := ZFill(NatToString(step), 8);
    var ext := LastField(filename, '.');
    ZFillValue(step, 8);
    assert '.' !in d by {
      forall i | 0 <= i < |d| ensures d[i] != '.' { assert IsDigit(d[i]); }
    }
    assert Join([d, ext], '.') == d + ['.'] + ext;
    SplitJoin([d, ext], '.');
  }

  /** os.path.join(view folder, sequence directory, frame name). */
  function CompletePath(partial: string, seqDir: string, frame: string): string {
    partial + "/" + seqDir + "/" + frame
  }

  /**
   * The metadata directory: every occurrence of the view replaced by
   * "metadata", then every "rgb" by "seq", then every occurrence of the last
   * path component removed (an empty last component removes nothing).
   */
  function MetadataDir(complete: string, view: string): string
    requires |view| > 0
  {
    var renamed := ReplaceAll(ReplaceAll(complete, view, "metadata"), "rgb", "seq");
    var img := LastField(renamed, '/');
    if |img| == 0 then renamed else ReplaceAll(renamed, img, "")
  }

  /** The metadata counterpart of SequenceDir(k). */
  function MetadataSequenceDir(k: nat): string {
    if k == 0 then "seq" else "seq_" + ZFill(NatToString(k), 5)
  }

  /** A label component the renaming leaves alone. */
  predicate PlainComponent(s: string) {
    '/' !in s && !Contains(s, "rgb") && !Contains(s, WristD435)
  }

  lemma SequenceDirChars(k: nat)
    ensures '/' !in SequenceDir(k) && 'W' !in SequenceDir(k)
  {
    if k > 0 {
      var z := ZFill(NatToString(k), 5);
      assert '/' !in z && 'W' !in z by {
        forall i | 0 <= i < |z| ensures z[i] != '/' && z[i] != 'W' { assert IsDigit(z[i]); }
      }
      assert SequenceDir(k) == "rgb_" + z;
    }
  }

  /** The seven components of a complete frame path. */
  lemma CompletePathParts(base: string, f: LabelFields, seqDir: string, frame: string)
    ensures CompletePath(PartialPath(base, f), seqDir, frame)
      == Join([base, f.objectName, f.instanceName, f.preshape, f.view, seqDir, frame], '/')
  {
    var p5 := [base, f.objectName, f.instanceName, f.preshape, f.view];
    JoinSnoc(p5, seqDir, '/');
    assert p5 + [seqDir] == [base, f.objectName, f.instanceName, f.preshape, f.view, seqDir];
    JoinSnoc(p5 + [seqDir], frame, '/');
    assert p5 + [seqDir] + [frame] == [base, f.objectName, f.instanceName, f.preshape, f.view, seqDir, frame];
  }

  /** Replacing the view renames only the view component. */
  lemma ViewComponentRenamed(a: string, b: string, c: string, d: string, seqDir: string, frame: string)
    requires PlainComponent(a) && PlainComponent(b) && PlainComponent(c) && PlainComponent(d)
    requires PlainComponent(frame) && 'W' !in seqDir
    ensures ReplaceInParts([a, b, c, d, WristD435, seqDir, frame], WristD435, "metadata")
      == [a, b, c, d, "metadata", seqDir, frame]
  {
    var parts := [a, b, c, d, WristD435, seqDir, frame];
    var q := ReplaceInParts(parts, WristD435, "metadata");
    forall i | 0 <= i < 7 ensures q[i] == [a, b, c, d, "metadata", seqDir, frame][i] {
      ReplaceInPartsAt(parts, WristD435, "metadata", i);
      if i == 4 {
        ReplaceAllWhole(WristD435, "metadata");
      } else if i == 5 {
        MissingCharNotContained(seqDir, WristD435, 'W');
        ReplaceAllWithoutOccurrence(seqDir, WristD435, "metadata");
      } else {
        ReplaceAllWithoutOccurrence(parts[i], WristD435, "metadata");
      }
    }
  }

  lemma MetadataKeepsName()
    ensures ReplaceAll("metadata", "rgb", "seq") == "metadata"
  {
    assert "metadata"[0] != 'r' && "metadata"[1] != 'r' && "metadata"[2] != 'r' && "metadata"[3] != 'r';
    assert "metadata"[4] != 'r' && "metadata"[5] != 'r' && "metadata"[6] != 'r' && "metadata"[7] != 'r';
    MissingCharNotContained("metadata", "rgb", 'r');
    ReplaceAllWithoutOccurrence("metadata", "rgb", "seq");
  }

  lemma SequenceDirRenamed(k: nat)
    ensures ReplaceAll(SequenceDir(k), "rgb", "seq") == MetadataSequenceDir(k)
    ensures '.' !in MetadataSequenceDir(k)
  {
    if k == 0 {
      ReplaceAllWhole("rgb", "seq");
    } else {
      var z := ZFill(NatToString(k), 5);
      var rest := "_" + z;
      assert 'r' !in rest && '.' !in rest by {
        forall i | 0 <= i < |z| ensures z[i] != 'r' && z[i] != '.' { assert IsDigit(z[i]); }
      }
      AppendAssociative("rgb", "_", z);
      AppendAssociative("seq", "_", z);
      assert SequenceDir(k) == "rgb" + rest;
      assert MetadataSequenceDir(k) == "seq" + rest;
      ReplaceLeadingOnly("rgb", rest, "seq");
    }
  }

  /** Replacing "rgb" renames only the sequence directory. */
  lemma SequenceComponentRenamed(a: string, b: string, c: string, d: string, seqDir: string, seqMeta: string, frame: string)
    requires PlainComponent(a) && PlainComponent(b) && PlainComponent(c) && PlainComponent(d)
    requires PlainComponent(frame) && ReplaceAll(seqDir, "rgb", "seq") == seqMeta
    ensures ReplaceInParts([a, b, c, d, "metadata", seqDir, frame], "rgb", "seq")
      == [a, b, c, d, "metadata", seqMeta, frame]
  {
    var parts := [a, b, c, d, "metadata", seqDir, frame];
    var q := ReplaceInParts(parts, "rgb", "seq");
    forall i | 0 <= i < 7 ensures q[i] == [a, b, c, d, "metadata", seqMeta, frame][i] {
      ReplaceInPartsAt(parts, "rgb", "seq", i);
      if i == 4 {
        MetadataKeepsName();
      } else if i != 5 {
        ReplaceAllWithoutOccurrence(parts[i], "rgb", "seq");
      }
    }
  }

  /** Removing the frame name empties the last component only. */
  lemma FrameComponentRemoved(prefix: seq<string>, frame: string)
    requires |prefix| == 6 && |frame| > 0 && '/' !in frame
    requires forall i :: 0 <= i < 6 ==> !Contains(prefix[i], frame)
    ensures Join(prefix + [frame], '/') == Join(prefix, '/') + "/" + frame
    ensures LastField(Join(prefix + [frame], '/'), '/') == frame
    ensures ReplaceAll(Join(prefix + [frame], '/'), frame, "") == Join(prefix, '/') + "/"
  {
    var parts := prefix + [frame];
    JoinSnoc(prefix, frame, '/');
    LastFieldAfterSeparator(Join(prefix, '/'), '/', frame);
    ReplaceAllJoin(parts, '/', frame, "");
    FrameDropped(prefix, frame);
    JoinSnoc(prefix, "", '/');
  }

  /** Removing the frame name from each component empties the last one only. */
  lemma FrameDropped(prefix: seq<string>, frame: string)
    requires |prefix| == 6 && |frame| > 0
    requires forall i :: 0 <= i < 6 ==> !Contains(prefix[i], frame)
    ensures ReplaceInParts(prefix + [frame], frame, "") == prefix + [""]
  {
    var parts := prefix + [frame];
    var q := ReplaceInParts(parts, frame, "");
    forall i | 0 <= i < 7 ensures q[i] == (prefix + [""])[i] {
      ReplaceInPartsAt(parts, frame, "", i);
      if i == 6 {
        ReplaceAllWhole(frame, "");
      } else {
        ReplaceAllWithoutOccurrence(parts[i], frame, "");
      }
    }
  }

  /** Six components none of which contains the frame name, as a sequence. */
  lemma NoneContains(a: string, b: string, c: string, d: string, e: string, g: string, frame: string)
    requires !Contains(a, frame) && !Contains(b, frame) && !Contains(c, frame)
    requires !Contains(d, frame) && !Contains(e, frame) && !Contains(g, frame)
    ensures forall i :: 0 <= i < 6 ==> !Contains([a, b, c, d, e, g][i], frame)
  {
  }

  /** The two renamings of a frame path: the view becomes "metadata", the sequence its "seq" counterpart. */
  lemma RenamedPath(a: string, b: string, c: string, d: string, seqDir: string, seqMeta: string, frame: string)
    requires 'W' !in seqDir && '/' !in seqDir && ReplaceAll(seqDir, "rgb", "seq") == seqMeta
    requires PlainComponent(a) && PlainComponent(b) && PlainComponent(c) && PlainComponent(d) && PlainComponent(frame)
    ensures ReplaceAll(ReplaceAll(Join([a, b, c, d, WristD435, seqDir, frame], '/'), WristD435, "metadata"), "rgb", "seq")
      == Join([a, b, c, d, "metadata", seqMeta, frame], '/')
  {
    ReplaceAllJoin([a, b, c, d, WristD435, seqDir, frame], '/', WristD435, "metadata");
    ViewComponentRenamed(a, b, c, d, seqDir, frame);
    ReplaceAllJoin([a, b, c, d, "metadata", seqDir, frame], '/', "rgb", "seq");
    SequenceComponentRenamed(a, b, c, d, seqDir, seqMeta, frame);
  }

  /** The metadata directory of a frame path, for any sequence directory and frame name. */
  lemma MetadataDirOfPath(base: string, f: LabelFields, seqDir: string, seqMeta: string, frame: string)
    requires f.view == WristD435 && 'W' !in seqDir && '/' !in seqDir
    requires ReplaceAll(seqDir, "rgb", "seq") == seqMeta && '.' !in seqMeta
    requires PlainComponent(base) && PlainComponent(f.objectName) && PlainComponent(f.instanceName)
    requires PlainComponent(f.preshape) && PlainComponent(frame) && '.' in frame
    requires !Contains(base, frame) && !Contains(f.objectName, frame)
    requires !Contains(f.instanceName, frame) && !Contains(f.preshape, frame)
    ensures MetadataDir(CompletePath(PartialPath(base, f), seqDir, frame), f.view)
      == Join([base, f.objectName, f.instanceName, f.preshape, "metadata", seqMeta], '/') + "/"
  {
    var a, b, c, d := base, f.objectName, f.instanceName, f.preshape;
    CompletePathParts(base, f, seqDir, frame);
    RenamedPath(a, b, c, d, seqDir, seqMeta, frame);
    assert '.' !in "metadata";
    MissingCharNotContained("metadata", frame, '.');
    MissingCharNotContained(seqMeta, frame, '.');
    var prefix := [a, b, c, d, "metadata", seqMeta];
    NoneContains(a, b, c, d, "metadata", seqMeta, frame);
    FrameComponentRemoved(prefix, frame);
    assert prefix + [frame] == [a, b, c, d, "metadata", seqMeta, frame];
    var renamed := ReplaceAll(ReplaceAll(CompletePath(PartialPath(base, f), seqDir, frame), WristD435, "metadata"), "rgb", "seq");
    assert renamed == Join(prefix + [frame], '/');
    assert LastField(renamed, '/') == frame;
  }

  lemma FrameFileNameHasDot(step: nat, filename: string)
    ensures '.' in FrameFileName(step, filename)
  {
    var d := ZFill(NatToString(step), 8);
    assert FrameFileName(step, filename)[|d|] == '.';
  }

  /**
   * For a frame filed under base/object/instance/preshape/Wrist_d435/<k-th
   * sequence>/<frame>, the metadata directory is
   * base/object/instance/preshape/metadata/<seq counterpart>/, provided the
   * label components contain neither "rgb", the view name nor the frame name.
   */
  lemma MetadataDirOfFrame(base: string, f: LabelFields, k: nat, step: nat, filename: string)
    requires f.view == WristD435
    requires PlainComponent(base) && PlainComponent(f.objectName) && PlainComponent(f.instanceName)
    requires PlainComponent(f.preshape) && PlainComponent(FrameFileName(step, filename))
    requires !Contains(base, FrameFileName(step, filename)) && !Contains(f.objectName, FrameFileName(step, filename))
    requires !Contains(f.instanceName, FrameFileName(step, filename)) && !Contains(f.preshape, FrameFileName(step, filename))
    ensures MetadataDir(CompletePath(PartialPath(base, f), SequenceDir(k), FrameFileName(step, filename)), f.view)
      == Join([base, f.objectName, f.instanceName, f.preshape, "metadata", MetadataSequenceDir(k)], '/') + "/"
  {
    SequenceDirChars(k);
    SequenceDirRenamed(k);
    FrameFileNameHasDot(step, filename);
    MetadataDirOfPath(base, f, SequenceDir(k), MetadataSequenceDir(k), FrameFileName(step, filename));
  }

  // ---------------------------------------------------------------------------
  // data.log

  /** The last column: quoted in the post-processing script. */
  function ElevationColumn(script: Script): string {
    if script == CollectionScript then "objElevation_+90" else "\"objElevation_+90\""
  }

  /** The single line written to data.log, eleven space-separated columns. */
  function DataLogLine(script: Script, f: LabelFields): string {
    Join(["junk", "junk", "junk", f.objectName, f.instanceName, f.graspType, f.preshape,
          "elevation_0", "approach_0", "objAzimuth_0", ElevationColumn(script)], ' ')
  }

  /**
   * Read back by splitting on blanks, the line gives the object, instance, grasp
   * type and preshape in columns 3 to 6, and the fixed elevation column last.
   */
  lemma DataLogColumns(script: Script, f: LabelFields)
    requires ' ' !in f.objectName && ' ' !in f.instanceName && ' ' !in f.graspType && ' ' !in f.preshape
    ensures var cols := Split(DataLogLine(script, f), ' ');
      |cols| == 11 && cols[3] == f.objectName && cols[4] == f.instanceName
      && cols[5] == f.graspType && cols[6] == f.preshape && cols[10] == ElevationColumn(script)
      && cols[..3] == ["junk", "junk", "junk"]
  {
    var parts := ["junk", "junk", "junk", f.objectName, f.instanceName, f.graspType, f.preshape,
                  "elevation_0", "approach_0", "objAzimuth_0", ElevationColumn(script)];
    assert ' ' !in ElevationColumn(script);
    SplitJoin(parts, ' ');
  }
}
