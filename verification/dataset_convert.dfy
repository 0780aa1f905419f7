// The conversion loop of the two dataset scripts: for every captures file and
// every frame in it, find the grasp labels, open a new sequence directory at
// step 0, move the frame into the current sequence directory and create the
// metadata directory with its data.log the first time it is needed.
//
// The file system is reduced to what the scripts consult: which frame files
// exist, the names each view folder holds (its listdir), which metadata
// directories exist and what their data.log says. JSON parsing and the glob
// results are inputs.

module DatasetConvert {
  import opened Wrappers
  import opened Text
  import opened DatasetNaming

  /** One entry of the `captures` list of a captures file. */
  datatype Capture = Capture(step: nat, filename: string, annotations: seq<Annotation>)

  /** The part of the file system the scripts read and change. */
  datatype Disk = Disk(
    present: set<string>,
    entries: map<string, set<string>>,
    metadataDirs: set<string>,
    dataLogs: map<string, string>)

  /** The disk plus the script's own variables that live across frames. */
  datatype RunState = RunState(disk: Disk, carried: Option<LabelFields>, skipped: seq<string>)

  /** Labels left over from an earlier frame were normalised when they were read. */
  predicate LabelsNormalised(st: RunState) {
    st.carried.Some? ==> st.carried.value.view == WristD435
  }

  // ---------------------------------------------------------------------------
  // One frame

  /**
   * Step 0 of a sequence: a view folder that exists gets "rgb_" + its entry
   * count (mkdir fails if that name is taken); a missing one is created with
   * "rgb" inside.
   */
  function OpenSequence(entries: map<string, set<string>>, partial: string)
    : Result<map<string, set<string>>, ConvertError>
  {
    if partial in entries then
      var name := NewSequenceDir(|entries[partial]|);
      if name in entries[partial] then Err(DirectoryExists(partial + "/" + name))
      else Ok(entries[partial := entries[partial] + {name}])
    else Ok(entries[partial := {FirstSequenceDir}])
  }

  /** Moving a frame that has its labels: directories, rename, metadata. */
  function MoveFrame(script: Script, base: string, st: RunState, f: LabelFields, c: Capture)
    : (RunState, Option<ConvertError>)
    requires f.view == WristD435
  {
    var partial := PartialPath(base, f);
    var made := if c.step == 0 then OpenSequence(st.disk.entries, partial) else Ok(st.disk.entries);
    match made
    case Err(e) => (st, Some(e))
    case Ok(entries) =>
      var st1 := st.(disk := st.disk.(entries := entries));
      if partial !in entries then (st1, Some(NotADirectory(partial)))
      else
        var seqDir := CurrentSequenceDir(|entries[partial]|);
        if seqDir !in entries[partial] then (st1, Some(MissingDestination(partial + "/" + seqDir)))
        else
          var complete := CompletePath(partial, seqDir, FrameFileName(c.step, c.filename));
          (FiledAt(script, st1, f, c, complete), None)
  }

  /** The state after the frame file is renamed to `complete` and its metadata is in place. */
  function FiledAt(script: Script, st: RunState, f: LabelFields, c: Capture, complete: string): RunState
    requires f.view == WristD435
  {
    var md := MetadataDir(complete, f.view);
    var present := st.disk.present - {c.filename} + {complete};
    if md in st.disk.metadataDirs then st.(disk := st.disk.(present := present))
    else st.(disk := st.disk.(present := present, metadataDirs := st.disk.metadataDirs + {md},
                              dataLogs := st.disk.dataLogs[md := DataLogLine(script, f)]))
  }

  /**
   * One frame: a missing image is skipped (the collection script also reports
   * it), otherwise its labels are found and it is moved.
   */
  function FrameStep(script: Script, base: string, st: RunState, c: Capture): (r: (RunState, Option<ConvertError>))
    requires LabelsNormalised(st)
    ensures LabelsNormalised(r.0)
  {
    if c.filename !in st.disk.present then
      (st.(skipped := if script == CollectionScript then st.skipped + [c.filename] else st.skipped), None)
    else
      FrameLabelsNormalised(script, c.annotations, st.carried);
      match FrameLabels(script, c.annotations, st.carried)
      case Err(e) => (st, Some(e))
      case Ok(f) => MoveFrame(script, base, st.(carried := Some(f)), f, c)
  }

  /** Every frame of a captures file in order, stopping at the first error. */
  function CapturesStep(script: Script, base: string, st: RunState, cs: seq<Capture>)
    : (r: (RunState, Option<ConvertError>))
    requires LabelsNormalised(st)
    ensures LabelsNormalised(r.0)
    decreases |cs|
  {
    if |cs| == 0 then (st, None)
    else
      var (st1, e) := FrameStep(script, base, st, cs[0]);
      if e.Some? then (st1, e) else CapturesStep(script, base, st1, cs[1..])
  }

  /** The globbed capture files from round i on; round i opens captures_<i>. */
  function FilesStep(script: Script, base: string, st: RunState, globbed: seq<(string, string)>,
                     files: map<string, seq<Capture>>, i: nat): (r: (RunState, Option<ConvertError>))
    requires LabelsNormalised(st)
    requires forall j :: 0 <= j < |globbed| ==> |globbed[j].1| > 0
    requires i <= |globbed|
    ensures LabelsNormalised(r.0)
    decreases |globbed| - i
  {
    if i == |globbed| then (st, None)
    else
      var name := OpenedCapturesFile(globbed[i].0, globbed[i].1, i);
      if name !in files then (st, Some(MissingCapturesFile(name)))
      else
        var (st1, e) := CapturesStep(script, base, st, files[name]);
        if e.Some? then (st1, e) else FilesStep(script, base, st1, globbed, files, i + 1)
  }

  /** A whole run: the collection script checks its folders first. */
  function RunSpec(script: Script, base: string, st: RunState, launchDir: string, scriptDir: string,
                   datasetFolders: nat, rgbFolders: nat, globbed: seq<(string, string)>,
                   files: map<string, seq<Capture>>): (r: (RunState, Option<ConvertError>))
    requires LabelsNormalised(st)
    requires forall j :: 0 <= j < |globbed| ==> |globbed[j].1| > 0
    ensures LabelsNormalised(r.0)
  {
    var check := if script == CollectionScript then CheckFolders(launchDir, scriptDir, datasetFolders, rgbFolders) else None;
    if check.Some? then (st, check) else FilesStep(script, base, st, globbed, files, 0)
  }

  // ---------------------------------------------------------------------------
  // What the loop promises

  /** A frame whose image is missing changes nothing but the report. */
  lemma MissingFrameSkipped(script: Script, base: string, st: RunState, c: Capture)
    requires LabelsNormalised(st) && c.filename !in st.disk.present
    ensures FrameStep(script, base, st, c).1 == None
    ensures FrameStep(script, base, st, c).0.disk == st.disk
    ensures FrameStep(script, base, st, c).0.carried == st.carried
    ensures FrameStep(script, base, st, c).0.skipped
      == if script == CollectionScript then st.skipped + [c.filename] else st.skipped
  {
  }

  /** The first n sequence directories of a view folder, or no folder at all when n is 0. */
  predicate HoldsSequences(entries: map<string, set<string>>, partial: string, n: nat) {
    if partial in entries then n > 0 && entries[partial] == SequenceDirs(n) else n == 0
  }

  /** Step 0 makes the (n+1)-th sequence directory. */
  lemma OpenNextSequence(entries: map<string, set<string>>, partial: string, n: nat)
    requires HoldsSequences(entries, partial, n)
    ensures OpenSequence(entries, partial).Ok?
    ensures var e := OpenSequence(entries, partial).value;
      partial in e && e[partial] == SequenceDirs(n + 1) && HoldsSequences(e, partial, n + 1)
      && forall p :: p in entries && p != partial ==> p in e && e[p] == entries[p]
  {
    SequenceDirsCount(n);
    if partial !in entries {
      assert SequenceDirs(0) == {};
    }
  }

  /**
   * The frame at step 0, given a view folder holding the first n sequence
   * directories: the (n+1)-th is created and the frame is moved into it.
   */
  lemma FirstFrameOpensSequence(script: Script, base: string, st: RunState, c: Capture, f: LabelFields, n: nat)
    requires LabelsNormalised(st) && c.filename in st.disk.present && c.step == 0
    requires FrameLabels(script, c.annotations, st.carried) == Ok(f)
    requires HoldsSequences(st.disk.entries, PartialPath(base, f), n)
    ensures var (st', err) := FrameStep(script, base, st, c);
      var partial := PartialPath(base, f);
      err == None && HoldsSequences(st'.disk.entries, partial, n + 1)
      && st' == FiledAt(script, st.(carried := Some(f), disk := st.disk.(entries := st'.disk.entries)), f, c,
                        CompletePath(partial, SequenceDir(n), FrameFileName(c.step, c.filename)))
  {
    FrameLabelsNormalised(script, c.annotations, st.carried);
    var partial := PartialPath(base, f);
    OpenNextSequence(st.disk.entries, partial, n);
    SequenceDirsCount(n + 1);
    FramesGoToNewestSequence(n);
  }

  /**
   * A later frame, given a view folder holding n + 1 sequence directories: no
   * directory is made and the frame joins the newest sequence, the one made at
   * step 0.
   */
  lemma LaterFrameJoinsSequence(script: Script, base: string, st: RunState, c: Capture, f: LabelFields, n: nat)
    requires LabelsNormalised(st) && c.filename in st.disk.present && c.step != 0
    requires FrameLabels(script, c.annotations, st.carried) == Ok(f)
    requires HoldsSequences(st.disk.entries, PartialPath(base, f), n + 1)
    ensures var (st', err) := FrameStep(script, base, st, c);
      err == None && st'.disk.entries == st.disk.entries
      && st' == FiledAt(script, st.(carried := Some(f)), f, c,
                        CompletePath(PartialPath(base, f), SequenceDir(n), FrameFileName(c.step, c.filename)))
  {
    FrameLabelsNormalised(script, c.annotations, st.carried);
    SequenceDirsCount(n + 1);
    FramesGoToNewestSequence(n);
  }

  /**
   * A view folder that exists but is empty: step 0 makes "rgb_00000", the
   * count is then 1, and the frame is sent to the "rgb" directory that does
   * not exist.
   */
  lemma EmptyViewFolderLosesFrame(script: Script, base: string, st: RunState, c: Capture, f: LabelFields)
    requires LabelsNormalised(st) && c.filename in st.disk.present && c.step == 0
    requires FrameLabels(script, c.annotations, st.carried) == Ok(f)
    requires PartialPath(base, f) in st.disk.entries && st.disk.entries[PartialPath(base, f)] == {}
    ensures var (st', err) := FrameStep(script, base, st, c);
      err == Some(MissingDestination(PartialPath(base, f) + "/" + FirstSequenceDir))
      && st'.disk.entries[PartialPath(base, f)] == {NewSequenceDir(0)}
      && st'.disk.present == st.disk.present
  {
    FrameLabelsNormalised(script, c.annotations, st.carried);
    var name := NewSequenceDir(0);
    assert |name| >= 9;
    assert name != FirstSequenceDir;
  }

  /**
   * data.log is written only when the metadata directory is created, with the
   * line for the frame's labels; an existing metadata directory keeps its log.
   */
  lemma DataLogOnCreation(script: Script, st: RunState, f: LabelFields, c: Capture, complete: string)
    requires f.view == WristD435
    ensures var st' := FiledAt(script, st, f, c, complete);
      var md := MetadataDir(complete, f.view);
      st'.disk.metadataDirs == st.disk.metadataDirs + {md}
      && (md in st.disk.metadataDirs ==> st'.disk.dataLogs == st.disk.dataLogs)
      && (md !in st.disk.metadataDirs ==> st'.disk.dataLogs == st.disk.dataLogs[md := DataLogLine(script, f)])
      && complete in st'.disk.present && (c.filename != complete ==> c.filename !in st'.disk.present)
      && st'.disk.entries == st.disk.entries && st'.carried == st.carried
  {
  }

  /**
   * In the post-processing script a frame without grasp annotation is filed
   * under the labels of the last frame that had one.
   */
  lemma LabelsCarriedOver(base: string, st: RunState, c: Capture, g: LabelFields)
    requires LabelsNormalised(st) && c.filename in st.disk.present && st.carried == Some(g)
    requires forall j :: 0 <= j < |c.annotations| ==> c.annotations[j].modelType != GraspTypeModel
    ensures FrameStep(PostProcessingScript, base, st, c) == MoveFrame(PostProcessingScript, base, st, g, c)
  {
    FrameWithoutGraspAnnotation(PostProcessingScript, c.annotations, st.carried);
  }

  /** In the collection script the same frame stops the run and changes nothing. */
  lemma MissingAnnotationStops(base: string, st: RunState, c: Capture)
    requires LabelsNormalised(st) && c.filename in st.disk.present
    requires forall j :: 0 <= j < |c.annotations| ==> c.annotations[j].modelType != GraspTypeModel
    ensures FrameStep(CollectionScript, base, st, c) == (st, Some(NoGraspAnnotation))
  {
    FrameWithoutGraspAnnotation(CollectionScript, c.annotations, st.carried);
  }

  // ---------------------------------------------------------------------------
  // The script

  class Converter {
    const script: Script
    const base: string
    var disk: Disk
    var carried: Option<LabelFields>
    var skipped: seq<string>

    function State(): RunState
      reads this
    {
      RunState(disk, carried, skipped)
    }

    predicate Valid()
      reads this
    {
      LabelsNormalised(State())
    }

    constructor(script: Script, base: string, disk: Disk)
      ensures this.script == script && this.base == base
      ensures State() == RunState(disk, None, []) && Valid()
    {
      this.script := script;
      this.base := base;
      this.disk := disk;
      this.carried := None;
      this.skipped := [];
    }

    /** The annotation loop of one frame. */
    method ScanFrame(anns: seq<Annotation>, start: Option<LabelFields>) returns (r: Result<Option<LabelFields>, string>)
      ensures r == ScanAnnotations(script, anns, start)
    {
      var found := start;
      var i := 0;
      while i < |anns|
        invariant 0 <= i <= |anns|
        invariant ScanAnnotations(script, anns, start) == ScanAnnotations(script, anns[i..], found)
      {
        assert anns[i..][1..] == anns[i + 1..];
        if anns[i].modelType == GraspTypeModel {
          var v := NormaliseView(script, anns[i].values.view);
          if v.Err? {
            return Err(v.error);
          }
          found := Some(anns[i].values.(view := v.value));
        }
        i := i + 1;
      }
      return Ok(found);
    }

    method ConvertFrame(c: Capture) returns (err: Option<ConvertError>)
      requires Valid()
      modifies this
      ensures Valid()
      ensures (State(), err) == FrameStep(script, base, old(State()), c)
    {
      if c.filename !in disk.present {
        if script == CollectionScript {
          skipped := skipped + [c.filename];
        }
        return None;
      }
      FrameLabelsNormalised(script, c.annotations, carried);
      var scanned := ScanFrame(c.annotations, if script == CollectionScript then None else carried);
      if scanned.Err? {
        return Some(UnexpectedView(scanned.error));
      }
      if scanned.value.None? {
        return Some(if script == CollectionScript then NoGraspAnnotation else UnboundLabels);
      }
      var f := scanned.value.value;
      carried := Some(f);
      err := FileFrame(f, c);
    }

    /** Move a labelled frame: open its sequence on step 0, rename the file, add the metadata. */
    method FileFrame(f: LabelFields, c: Capture) returns (err: Option<ConvertError>)
      requires Valid() && f.view == WristD435 && carried == Some(f)
      modifies this
      ensures Valid()
      ensures (State(), err) == MoveFrame(script, base, old(State()), f, c)
    {
      ghost var st := State();
      var partial := PartialPath(base, f);
      if c.step == 0 {
        err := StartSequence(partial);
        if err.Some? {
          return;
        }
      }
      ghost var st1 := st.(disk := st.disk.(entries := disk.entries));
      assert State() == st1;
      assert (if c.step == 0 then OpenSequence(st.disk.entries, partial) else Ok(st.disk.entries)) == Ok(disk.entries);
      if partial !in disk.entries {
        return Some(NotADirectory(partial));
      }
      var seqDir := CurrentSequenceDir(|disk.entries[partial]|);
      if seqDir !in disk.entries[partial] {
        return Some(MissingDestination(partial + "/" + seqDir));
      }
      var complete := CompletePath(partial, seqDir, FrameFileName(c.step, c.filename));
      RenameFrame(f, c, complete);
      assert State() == FiledAt(script, st1, f, c, complete);
      return None;
    }

    /** Step 0 of a sequence creates its directory under `partial`. */
    method StartSequence(partial: string) returns (err: Option<ConvertError>)
      modifies this`disk
      ensures OpenSequence(old(disk.entries), partial).Err? ==>
        err == Some(OpenSequence(old(disk.entries), partial).error) && disk == old(disk)
      ensures OpenSequence(old(disk.entries), partial).Ok? ==>
        err == None && disk == old(disk).(entries := OpenSequence(old(disk.entries), partial).value)
    {
      if partial in disk.entries {
        var name := NewSequenceDir(|disk.entries[partial]|);
        if name in disk.entries[partial] {
          return Some(DirectoryExists(partial + "/" + name));
        }
        disk := disk.(entries := disk.entries[partial := disk.entries[partial] + {name}]);
      } else {
        disk := disk.(entries := disk.entries[partial := {FirstSequenceDir}]);
      }
      return None;
    }

    /** The frame file becomes `complete`, and its sequence gets metadata once. */
    method RenameFrame(f: LabelFields, c: Capture, complete: string)
      requires f.view == WristD435
      modifies this`disk
      ensures State() == FiledAt(script, old(State()), f, c, complete)
    {
      disk := disk.(present := disk.present - {c.filename} + {complete});
      var md := MetadataDir(complete, f.view);
      if md !in disk.metadataDirs {
        disk := disk.(metadataDirs := disk.metadataDirs + {md}, dataLogs := disk.dataLogs[md := DataLogLine(script, f)]);
      }
    }

    /** The frame loop over one captures file. */
    method ConvertCaptures(cs: seq<Capture>) returns (err: Option<ConvertError>)
      requires Valid()
      modifies this
      ensures Valid()
      ensures (State(), err) == CapturesStep(script, base, old(State()), cs)
    {
      var i := 0;
      while i < |cs|
        invariant 0 <= i <= |cs| && Valid()
        invariant CapturesStep(script, base, old(State()), cs) == CapturesStep(script, base, State(), cs[i..])
      {
        assert cs[i..][1..] == cs[i + 1..];
        err := ConvertFrame(cs[i]);
        if err.Some? {
          return;
        }
        i := i + 1;
      }
      return None;
    }

    /** The loop over the globbed captures files. */
    method ConvertFiles(globbed: seq<(string, string)>, files: map<string, seq<Capture>>)
      returns (err: Option<ConvertError>)
      requires Valid() && forall j :: 0 <= j < |globbed| ==> |globbed[j].1| > 0
      modifies this
      ensures Valid()
      ensures (State(), err) == FilesStep(script, base, old(State()), globbed, files, 0)
    {
      var i := 0;
      while i < |globbed|
        invariant 0 <= i <= |globbed| && Valid()
        invariant FilesStep(script, base, old(State()), globbed, files, 0) == FilesStep(script, base, State(), globbed, files, i)
      {
        var name := OpenedCapturesFile(globbed[i].0, globbed[i].1, i);
        if name !in files {
          return Some(MissingCapturesFile(name));
        }
        err := ConvertCaptures(files[name]);
        if err.Some? {
          return;
        }
        i := i + 1;
      }
      return None;
    }

    method Run(launchDir: string, scriptDir: string, datasetFolders: nat, rgbFolders: nat,
               globbed: seq<(string, string)>, files: map<string, seq<Capture>>)
      returns (err: Option<ConvertError>)
      requires Valid() && forall j :: 0 <= j < |globbed| ==> |globbed[j].1| > 0
      modifies this
      ensures Valid()
      ensures (State(), err) == RunSpec(script, base, old(State()), launchDir, scriptDir, datasetFolders, rgbFolders, globbed, files)
    {
      if script == CollectionScript {
        err := CheckFolders(launchDir, scriptDir, datasetFolders, rgbFolders);
        if err.Some? {
          return;
        }
      }
      err := ConvertFiles(globbed, files);
    }
  }
}
