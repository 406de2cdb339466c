/**
 * The exporter of msexport: part analysis, the in-place mixer changes
 * (setVolume, setInstruments) and the planning of the export tasks, one
 * per variant, each carrying a copy of the score as it stood when the
 * task was emitted.
 */
module Planner {
  import opened Wrappers
  import opened Halts
  import opened Paths
  import opened ScoreModel

  /** What the analysis records of a part (`$this->aParts[]`). */
  datatype PartInfo = PartInfo(isVoice: bool, longName: string, volIdx: nat)

  /** The settings msexport reads from its configuration file. */
  datatype Config = Config(workDir: string, exportDir: string, sep: string, voices: seq<string>)

  /** The input path and the two pieces `pathinfo` gives of it that name the outputs. */
  datatype Source = Source(path: string, stem: string, ext: string)

  /** The MuseScore command line of a task, reduced to the files it writes and reads. */
  datatype Command =
    | ExportAudio(target: string, input: string)       // -o "<target>" "<input>"
    | ExportScoreParts(target: string, input: string)  // --export-score-parts -o "<target>" "<input>"

  /** One entry of `$this->aTasks`: title, command, file to delete afterwards ("" for none),
      and the score written into the task's working copy (none for the PDF task). */
  datatype Task = Task(title: string, command: Command, cleanupPath: string, snapshot: Option<seq<Part>>)

  /** The score archive as the ZIP and XML layers deliver it. */
  datatype Archive = Archive(rootfiles: Option<seq<string>>, entries: map<string, Score>)

  /** General MIDI programs the voices are switched to. */
  const ChoirAahs: int := 52
  const GrandPiano: int := 0

  function SourceOf(path: string): Source
  {
    Source(path, Filename(path), ExtensionText(path))
  }

  /** The working copy prepareExport creates for a variant. */
  function WorkCopy(cfg: Config, src: Source, title: string): (p: string)
    ensures |p| > 0
  {
    cfg.workDir + cfg.sep + src.stem + title + "." + src.ext
  }

  /** The task prepareExport appends for a variant title and the current score. */
  function AudioTask(cfg: Config, src: Source, title: string, snap: seq<Part>): Task
  {
    Task(title,
         ExportAudio(cfg.exportDir + cfg.sep + src.stem + title + ".mp3", WorkCopy(cfg, src, title)),
         WorkCopy(cfg, src, title),
         Some(snap))
  }

  /** The final task: the score and its parts as PDF, rendered from the original input. */
  function PdfTask(cfg: Config, src: Source): Task
  {
    Task(src.stem + ".pdf",
         ExportScoreParts(cfg.exportDir + cfg.sep + src.stem + ".pdf", src.path),
         "",
         None)
  }

  /** Every part has an analysis record whose volume index names a controller with ctrl "7". */
  predicate WellFormed(ps: seq<Part>, info: seq<PartInfo>)
  {
    |ps| == |info| &&
    forall j :: 0 <= j < |ps| ==>
      info[j].volIdx < |ps[j].controllers| && ps[j].controllers[info[j].volIdx].ctrl == VolumeCtrl
  }

  /** The volume setVolume gives a part: voices get `vThis` when focused and `vOthers`
      otherwise, instruments get `vInstr`. */
  function VolumeFor(isVoice: bool, focused: bool, vThis: int, vOthers: int, vInstr: int): int
  {
    if isVoice then (if focused then vThis else vOthers) else vInstr
  }

  /** `ps` differs from `qs` at most in the value of each part's volume controller and in
      the program of voice parts. */
  predicate SameButMixer(ps: seq<Part>, qs: seq<Part>, info: seq<PartInfo>)
    requires WellFormed(qs, info)
  {
    |ps| == |qs| &&
    forall j :: 0 <= j < |ps| ==>
      && ps[j].instrumentId == qs[j].instrumentId
      && ps[j].longName == qs[j].longName
      && |ps[j].controllers| == |qs[j].controllers|
      && ps[j].controllers[info[j].volIdx].ctrl == qs[j].controllers[info[j].volIdx].ctrl
      && (forall k :: 0 <= k < |ps[j].controllers| && k != info[j].volIdx ==>
            ps[j].controllers[k] == qs[j].controllers[k])
      && (!info[j].isVoice ==> ps[j].program == qs[j].program)
  }

  /** Every voice part of `ps` plays program `prog`. */
  predicate VoicesPlay(ps: seq<Part>, info: seq<PartInfo>, prog: int)
  {
    |ps| == |info| && forall j :: 0 <= j < |ps| && info[j].isVoice ==> ps[j].program == prog
  }

  /** `ps` is `base` with the mixer of one variant: the volumes setVolume(focus, vThis,
      vOthers, vInstr) writes and, on voice parts, the program setInstruments(prog) writes. */
  predicate IsMix(ps: seq<Part>, base: seq<Part>, info: seq<PartInfo>,
                  focus: int, vThis: int, vOthers: int, vInstr: int, prog: int)
    requires WellFormed(base, info)
  {
    SameButMixer(ps, base, info) && VoicesPlay(ps, info, prog) &&
    forall j :: 0 <= j < |ps| ==>
      ps[j].controllers[info[j].volIdx].value == VolumeFor(info[j].isVoice, j == focus, vThis, vOthers, vInstr)
  }

  /** What setVolume does to a score `qs`: every volume value written, nothing else changed. */
  predicate VolumesSet(ps: seq<Part>, qs: seq<Part>, info: seq<PartInfo>,
                       focus: int, vThis: int, vOthers: int, vInstr: int)
    requires WellFormed(qs, info)
  {
    SameButMixer(ps, qs, info) &&
    forall j :: 0 <= j < |ps| ==>
      && ps[j].program == qs[j].program
      && ps[j].controllers[info[j].volIdx].value == VolumeFor(info[j].isVoice, j == focus, vThis, vOthers, vInstr)
  }

  /** What setInstruments does to a score `qs`: voice parts get program `prog`. */
  predicate ProgramsSet(ps: seq<Part>, qs: seq<Part>, info: seq<PartInfo>, prog: int)
  {
    |ps| == |qs| && |qs| == |info| &&
    forall j :: 0 <= j < |ps| ==> ps[j] == if info[j].isVoice then qs[j].(program := prog) else qs[j]
  }

  /** With focus -1 (the two full mixes) no part gets `vThis`: voices get `vOthers`,
      instruments `vInstr`. */
  lemma UnfocusedVolumes(ps: seq<Part>, qs: seq<Part>, info: seq<PartInfo>, vThis: int, vOthers: int, vInstr: int)
    requires WellFormed(qs, info) && VolumesSet(ps, qs, info, -1, vThis, vOthers, vInstr)
    ensures forall j :: 0 <= j < |ps| ==>
              ps[j].controllers[info[j].volIdx].value == if info[j].isVoice then vOthers else vInstr
  {
  }

  /** Writing one part's volume value keeps a score well formed and a mixer variant of `qs`. */
  lemma VolumeWriteKeeps(ps: seq<Part>, qs: seq<Part>, info: seq<PartInfo>, j: nat, v: int)
    requires WellFormed(qs, info) && WellFormed(ps, info) && SameButMixer(ps, qs, info) && j < |ps|
    ensures var k := info[j].volIdx;
            var ps' := ps[j := ps[j].(controllers := ps[j].controllers[k := ps[j].controllers[k].(value := v)])];
            WellFormed(ps', info) && SameButMixer(ps', qs, info)
  {
  }

  /** The score of one variant (its mixer is stated by MixIsMix). */
  function Mix(base: seq<Part>, info: seq<PartInfo>,
               focus: int, vThis: int, vOthers: int, vInstr: int, prog: int): (r: seq<Part>)
    requires WellFormed(base, info)
    ensures |r| == |base|
  {
    seq(|base|, j requires 0 <= j < |base| =>
      var b := base[j];
      var k := info[j].volIdx;
      var v := VolumeFor(info[j].isVoice, j == focus, vThis, vOthers, vInstr);
      var q := b.(controllers := b.controllers[k := b.controllers[k].(value := v)]);
      if info[j].isVoice then q.(program := prog) else q)
  }

  /** The variant score keeps every part of `base` but for its mixer: each part's volume
      is VolumeFor its kind and focus, voice parts play `prog`, instruments keep theirs. */
  lemma MixIsMix(base: seq<Part>, info: seq<PartInfo>,
                 focus: int, vThis: int, vOthers: int, vInstr: int, prog: int)
    requires WellFormed(base, info)
    ensures IsMix(Mix(base, info, focus, vThis, vOthers, vInstr, prog), base, info, focus, vThis, vOthers, vInstr, prog)
    ensures WellFormed(Mix(base, info, focus, vThis, vOthers, vInstr, prog), info)
  {
  }

  /** A variant's mixer fixes the whole score: any score with that mixer is Mix's. */
  lemma MixUnique(ps: seq<Part>, base: seq<Part>, info: seq<PartInfo>,
                  focus: int, vThis: int, vOthers: int, vInstr: int, prog: int)
    requires WellFormed(base, info)
    requires IsMix(ps, base, info, focus, vThis, vOthers, vInstr, prog)
    ensures ps == Mix(base, info, focus, vThis, vOthers, vInstr, prog)
  {
    var m := Mix(base, info, focus, vThis, vOthers, vInstr, prog);
    MixIsMix(base, info, focus, vThis, vOthers, vInstr, prog);
    forall j | 0 <= j < |ps|
      ensures ps[j] == m[j]
    {
      assert ps[j].controllers == m[j].controllers;
    }
  }

  /** setInstruments keeps a score a mixer variant of `base`, with every voice on `prog`. */
  lemma ProgramStep(p0: seq<Part>, p1: seq<Part>, base: seq<Part>, info: seq<PartInfo>, prog: int)
    requires WellFormed(base, info) && SameButMixer(p0, base, info)
    requires ProgramsSet(p1, p0, info, prog)
    ensures SameButMixer(p1, base, info) && VoicesPlay(p1, info, prog) && WellFormed(p1, info)
  {
  }

  /** After setVolume, a score whose voices play `prog` is exactly the variant's Mix. */
  lemma VolumeStep(p1: seq<Part>, p2: seq<Part>, base: seq<Part>, info: seq<PartInfo>,
                   focus: int, vThis: int, vOthers: int, vInstr: int, prog: int)
    requires WellFormed(base, info) && WellFormed(p1, info)
    requires SameButMixer(p1, base, info) && VoicesPlay(p1, info, prog)
    requires VolumesSet(p2, p1, info, focus, vThis, vOthers, vInstr)
    ensures p2 == Mix(base, info, focus, vThis, vOthers, vInstr, prog)
    ensures SameButMixer(p2, base, info) && VoicesPlay(p2, info, prog)
  {
    assert IsMix(p2, base, info, focus, vThis, vOthers, vInstr, prog);
    MixUnique(p2, base, info, focus, vThis, vOthers, vInstr, prog);
  }

  /** The four variants of voice part `i`, in the order doRun emits them. */
  function VariantTasks(cfg: Config, src: Source, base: seq<Part>, info: seq<PartInfo>, i: nat): (r: seq<Task>)
    requires WellFormed(base, info) && i < |base|
    ensures |r| == 4
  {
    var name := info[i].longName;
    [ AudioTask(cfg, src, "-" + name, Mix(base, info, i, 100, 50, 100, ChoirAahs)),
      AudioTask(cfg, src, "-" + name + " (Karaoke)", Mix(base, info, i, 0, 100, 100, ChoirAahs)),
      AudioTask(cfg, src, "-" + name + " (Solo)", Mix(base, info, i, 100, 0, 100, ChoirAahs)),
      AudioTask(cfg, src, "-" + name + " (Piano)", Mix(base, info, i, 100, 50, 50, GrandPiano)) ]
  }

  /** The tasks of the voice loop over the first `n` parts; instruments add none. */
  function VoiceTasks(cfg: Config, src: Source, base: seq<Part>, info: seq<PartInfo>, n: nat): (r: seq<Task>)
    requires WellFormed(base, info) && n <= |base|
    ensures |r| == 4 * |VoiceIndices(info, n)|
  {
    if n == 0 then []
    else VoiceTasks(cfg, src, base, info, n - 1)
         + (if info[n - 1].isVoice then VariantTasks(cfg, src, base, info, n - 1) else [])
  }

  lemma VoiceTasksStep(cfg: Config, src: Source, base: seq<Part>, info: seq<PartInfo>, i: nat)
    requires WellFormed(base, info) && i < |base|
    ensures VoiceTasks(cfg, src, base, info, i + 1)
            == VoiceTasks(cfg, src, base, info, i)
               + (if info[i].isVoice then VariantTasks(cfg, src, base, info, i) else [])
  {
  }

  /** The whole task list doRun plans for the analysed score `base`. */
  function PlannedTasks(cfg: Config, src: Source, base: seq<Part>, info: seq<PartInfo>): seq<Task>
    requires WellFormed(base, info)
  {
    VoiceTasks(cfg, src, base, info, |base|)
    + [ AudioTask(cfg, src, "-Alle", Mix(base, info, -1, 100, 100, 100, ChoirAahs)),
        AudioTask(cfg, src, "-Alle (Piano)", Mix(base, info, -1, 100, 100, 100, GrandPiano)),
        PdfTask(cfg, src) ]
  }

  /** The indices of the voice parts among the first `n` parts, in part order. */
  function VoiceIndices(info: seq<PartInfo>, n: nat): (r: seq<nat>)
    requires n <= |info|
    ensures forall k :: 0 <= k < |r| ==> r[k] < n
  {
    if n == 0 then [] else VoiceIndices(info, n - 1) + (if info[n - 1].isVoice then [n - 1] else [])
  }

  /** Every index VoiceIndices lists is a voice part. */
  lemma {:induction false} VoiceIndicesAreVoices(info: seq<PartInfo>, n: nat)
    requires n <= |info|
    ensures forall k :: 0 <= k < |VoiceIndices(info, n)| ==> info[VoiceIndices(info, n)[k]].isVoice
  {
    if n > 0 {
      VoiceIndicesAreVoices(info, n - 1);
      var r0 := VoiceIndices(info, n - 1);
      var r := VoiceIndices(info, n);
      forall k | 0 <= k < |r|
        ensures info[r[k]].isVoice
      {
        if k < |r0| {
          assert r[k] == r0[k];
        } else {
          assert r[k] == n - 1;
        }
      }
    }
  }

  /** VoiceIndices lists the voice parts in increasing part order, each once. */
  lemma {:induction false} VoiceIndicesIncreasing(info: seq<PartInfo>, n: nat)
    requires n <= |info|
    ensures forall k1, k2 :: 0 <= k1 < k2 < |VoiceIndices(info, n)| ==>
              VoiceIndices(info, n)[k1] < VoiceIndices(info, n)[k2]
  {
    if n > 0 {
      VoiceIndicesIncreasing(info, n - 1);
      var r0 := VoiceIndices(info, n - 1);
      var r := VoiceIndices(info, n);
      forall k1, k2 | 0 <= k1 < k2 < |r|
        ensures r[k1] < r[k2]
      {
        assert r[k1] == r0[k1];
        if k2 < |r0| {
          assert r[k2] == r0[k2];
        } else {
          assert r[k2] == n - 1;
        }
      }
    }
  }

  /** VoiceIndices misses no voice part below `n`. */
  lemma {:induction false} VoiceIndicesComplete(info: seq<PartInfo>, n: nat)
    requires n <= |info|
    ensures forall j :: 0 <= j < n && info[j].isVoice ==> j in VoiceIndices(info, n)
  {
    if n > 0 {
      VoiceIndicesComplete(info, n - 1);
      var r0 := VoiceIndices(info, n - 1);
      var r := VoiceIndices(info, n);
      forall j | 0 <= j < n && info[j].isVoice
        ensures j in r
      {
        if j < n - 1 {
          var k :| 0 <= k < |r0| && r0[k] == j;
          assert r[k] == j;
        } else {
          assert r[|r0|] == j;
        }
      }
    }
  }

  lemma AppendThree<T>(s: seq<T>, a: T, b: T, c: T)
    ensures s + [a] + [b] + [c] == s + [a, b, c]
  {
  }

  /** Appending keeps the blocks of four already laid out. */
  lemma BlockKept<T>(prev: seq<T>, extra: seq<T>, k: nat, b: seq<T>)
    requires 4 * k + 4 <= |prev| && prev[4 * k .. 4 * k + 4] == b
    ensures (prev + extra)[4 * k .. 4 * k + 4] == b
  {
    assert (prev + extra)[4 * k .. 4 * k + 4] == prev[4 * k .. 4 * k + 4];
  }

  /** Appending a block of four to 4k elements lays it out as block k. */
  lemma BlockAdded<T>(prev: seq<T>, extra: seq<T>, k: nat)
    requires |prev| == 4 * k && |extra| == 4
    ensures (prev + extra)[4 * k .. 4 * k + 4] == extra
  {
    assert (prev + extra)[|prev|..] == extra;
  }

  /** The voice loop emits, for the k-th voice part, its four variants at positions 4k..4k+3. */
  lemma {:induction false} VoiceTasksLayout(cfg: Config, src: Source, base: seq<Part>, info: seq<PartInfo>,
                                            n: nat, k: nat)
    requires WellFormed(base, info) && n <= |base| && k < |VoiceIndices(info, n)|
    ensures VoiceTasks(cfg, src, base, info, n)[4 * k .. 4 * k + 4]
            == VariantTasks(cfg, src, base, info, VoiceIndices(info, n)[k])
    decreases n
  {
    var prev := VoiceTasks(cfg, src, base, info, n - 1);
    var vs := VoiceIndices(info, n - 1);
    if k < |vs| {
      VoiceTasksLayout(cfg, src, base, info, n - 1, k);
      assert VoiceIndices(info, n)[k] == vs[k];
      if info[n - 1].isVoice {
        BlockKept(prev, VariantTasks(cfg, src, base, info, n - 1), k,
                  VariantTasks(cfg, src, base, info, vs[k]));
      }
    } else {
      assert info[n - 1].isVoice && VoiceIndices(info, n)[k] == n - 1;
      BlockAdded(prev, VariantTasks(cfg, src, base, info, n - 1), k);
    }
  }

  /**
   * For v voice parts the plan has 4v + 3 tasks: the four variants of each voice
   * part in part order, then "-Alle", "-Alle (Piano)" and the PDF task.
   */
  lemma PlanLayout(cfg: Config, src: Source, base: seq<Part>, info: seq<PartInfo>)
    requires WellFormed(base, info)
    ensures var ts := PlannedTasks(cfg, src, base, info);
            var vs := VoiceIndices(info, |info|);
            && |ts| == 4 * |vs| + 3
            && (forall k :: 0 <= k < |vs| ==>
                  ts[4 * k .. 4 * k + 4] == VariantTasks(cfg, src, base, info, vs[k]))
            && ts[4 * |vs|] == AudioTask(cfg, src, "-Alle", Mix(base, info, -1, 100, 100, 100, ChoirAahs))
            && ts[4 * |vs| + 1] == AudioTask(cfg, src, "-Alle (Piano)", Mix(base, info, -1, 100, 100, 100, GrandPiano))
            && ts[4 * |vs| + 2] == PdfTask(cfg, src)
  {
    var ts := PlannedTasks(cfg, src, base, info);
    var vt := VoiceTasks(cfg, src, base, info, |base|);
    forall k | 0 <= k < |VoiceIndices(info, |info|)|
      ensures ts[4 * k .. 4 * k + 4] == VariantTasks(cfg, src, base, info, VoiceIndices(info, |info|)[k])
    {
      VoiceTasksLayout(cfg, src, base, info, |base|, k);
      assert ts[4 * k .. 4 * k + 4] == vt[4 * k .. 4 * k + 4];
    }
  }

  /** A task that prepareExport built: it renders, and then deletes, its working copy. */
  predicate IsAudioTask(cfg: Config, src: Source, t: Task)
  {
    t.snapshot.Some? && t == AudioTask(cfg, src, t.title, t.snapshot.value)
  }

  lemma {:induction false} VoiceTasksAreAudio(cfg: Config, src: Source, base: seq<Part>, info: seq<PartInfo>, n: nat)
    requires WellFormed(base, info) && n <= |base|
    ensures forall t :: 0 <= t < |VoiceTasks(cfg, src, base, info, n)| ==>
              IsAudioTask(cfg, src, VoiceTasks(cfg, src, base, info, n)[t])
  {
    if n > 0 {
      VoiceTasksAreAudio(cfg, src, base, info, n - 1);
    }
  }

  /**
   * Every task but the last renders a working copy cfg.workDir/<stem><title>.<ext>
   * and names that non-empty copy for deletion; the last task renders the PDF from
   * the original input and deletes nothing.
   */
  lemma PlanCleanup(cfg: Config, src: Source, base: seq<Part>, info: seq<PartInfo>)
    requires WellFormed(base, info)
    ensures var ts := PlannedTasks(cfg, src, base, info);
            && (forall t :: 0 <= t < |ts| - 1 ==>
                  && ts[t].cleanupPath == WorkCopy(cfg, src, ts[t].title)
                  && ts[t].cleanupPath != ""
                  && ts[t].command == ExportAudio(cfg.exportDir + cfg.sep + src.stem + ts[t].title + ".mp3",
                                                  ts[t].cleanupPath)
                  && ts[t].snapshot.Some?)
            && ts[|ts| - 1].cleanupPath == ""
            && ts[|ts| - 1].command == ExportScoreParts(cfg.exportDir + cfg.sep + src.stem + ".pdf", src.path)
            && ts[|ts| - 1].snapshot == None
  {
    VoiceTasksAreAudio(cfg, src, base, info, |base|);
  }

  /** What the analysis loop makes of one part `o`: the part `b` with a volume controller,
      and its record `inf`. */
  predicate AnalysedPart(version: string, voices: seq<string>, o: Part, b: Part, inf: PartInfo)
  {
    && (HasVolumeCtrl(o.controllers) ==> b == o)
    && (!HasVolumeCtrl(o.controllers) ==>
          b == o.(controllers := o.controllers + [Controller(VolumeCtrl, DefaultVolume)]))
    && IsVolumeIdx(b.controllers, inf.volIdx)
    && inf.isVoice == IsVoice(version, voices, o)
    && inf.longName == o.longName
  }

  predicate Analysis(version: string, voices: seq<string>, orig: seq<Part>, base: seq<Part>, info: seq<PartInfo>)
  {
    |base| == |orig| && |info| == |orig| &&
    forall j :: 0 <= j < |orig| ==> AnalysedPart(version, voices, orig[j], base[j], info[j])
  }

  /** The main score `s` is what the archive of `fileName` holds under its first main-score rootfile. */
  ghost predicate Loads(fileName: string, archive: Archive, s: Score)
  {
    fileName != "" && archive.rootfiles.Some? &&
    exists i :: && FirstMainScore(archive.rootfiles.value, i)
                && archive.rootfiles.value[i] in archive.entries
                && archive.entries[archive.rootfiles.value[i]] == s
  }

  /** Loading halts: no file name, no rootfile pointer, or no entry under the first main-score rootfile. */
  ghost predicate LoadFails(fileName: string, archive: Archive)
  {
    || fileName == ""
    || archive.rootfiles.None?
    || forall i :: FirstMainScore(archive.rootfiles.value, i) ==> archive.rootfiles.value[i] !in archive.entries
  }

  /** The halt a failing load reports: the first failing check, in doRun's order. */
  ghost function LoadHalt(fileName: string, archive: Archive): Halt
    requires LoadFails(fileName, archive)
  {
    if fileName == "" then MissingFileName
    else if archive.rootfiles.None? then MissingFilePointer
    else if forall i :: !FirstMainScore(archive.rootfiles.value, i) then MissingScoreFile
    else var i :| FirstMainScore(archive.rootfiles.value, i); UnreadableScore(archive.rootfiles.value[i])
  }

  /** An absent entry under the first main-score rootfile halts with that rootfile's name. */
  lemma UnreadableHalt(fileName: string, archive: Archive, i: nat)
    requires fileName != "" && archive.rootfiles.Some?
    requires FirstMainScore(archive.rootfiles.value, i) && archive.rootfiles.value[i] !in archive.entries
    ensures LoadFails(fileName, archive)
    ensures LoadHalt(fileName, archive) == UnreadableScore(archive.rootfiles.value[i])
  {
    var rootfiles := archive.rootfiles.value;
    forall j | FirstMainScore(rootfiles, j) ensures rootfiles[j] !in archive.entries {
      FirstMainScoreUnique(rootfiles, i, j);
    }
    var j :| FirstMainScore(rootfiles, j) && LoadHalt(fileName, archive) == UnreadableScore(rootfiles[j]);
    FirstMainScoreUnique(rootfiles, i, j);
  }

  /** Loading either halts or yields exactly one score. */
  lemma LoadsExclusive(fileName: string, archive: Archive, s: Score, t: Score)
    ensures LoadFails(fileName, archive) ==> !Loads(fileName, archive, s)
    ensures Loads(fileName, archive, s) && Loads(fileName, archive, t) ==> s == t
  {
    if Loads(fileName, archive, s) && Loads(fileName, archive, t) {
      var rootfiles := archive.rootfiles.value;
      var i :| FirstMainScore(rootfiles, i) && rootfiles[i] in archive.entries && archive.entries[rootfiles[i]] == s;
      var j :| FirstMainScore(rootfiles, j) && rootfiles[j] in archive.entries && archive.entries[rootfiles[j]] == t;
      FirstMainScoreUnique(rootfiles, i, j);
    }
  }

  /**
   * The loading part of doRun: the file name, the rootfile pointer, the rootfile
   * selection and the score entry, each with the halt it causes when missing.
   */
  method Load(fileName: string, archive: Archive) returns (r: Result<Score, Halt>)
    ensures r.Success? ==> Loads(fileName, archive, r.value)
    ensures r.Failure? <==> LoadFails(fileName, archive)
    ensures r.Failure? ==> r.error == LoadHalt(fileName, archive)
    ensures fileName == "" ==> r == Failure(MissingFileName)
    ensures fileName != "" && archive.rootfiles.None? ==> r == Failure(MissingFilePointer)
    ensures fileName != "" && archive.rootfiles.Some? ==>
              ((forall i :: !FirstMainScore(archive.rootfiles.value, i)) <==> r == Failure(MissingScoreFile))
    ensures fileName != "" && archive.rootfiles.Some? ==>
              forall i :: FirstMainScore(archive.rootfiles.value, i) && archive.rootfiles.value[i] !in archive.entries
                ==> r == Failure(UnreadableScore(archive.rootfiles.value[i]))
    ensures r.Failure? && r.error.UnreadableScore? ==>
              exists i :: && FirstMainScore(archive.rootfiles.value, i)
                          && archive.rootfiles.value[i] == r.error.path
                          && r.error.path !in archive.entries
  {
    if fileName == "" {
      return Failure(MissingFileName);
    }
    if archive.rootfiles.None? {
      return Failure(MissingFilePointer);
    }
    var rootfiles := archive.rootfiles.value;
    var selected := SelectScoreFile(rootfiles);
    if selected.Failure? {
      return Failure(selected.error);
    }
    var path := selected.value;
    if path !in archive.entries {
      ghost var i :| FirstMainScore(rootfiles, i) && rootfiles[i] == path;
      UnreadableHalt(fileName, archive, i);
      return Failure(UnreadableScore(path));
    }
    return Success(archive.entries[path]);
  }

  class Exporter {
    const cfg: Config
    var source: Source
    var version: string
    /** The parts of the loaded score (`$this->aPart`), changed in place by the mixer methods. */
    var parts: seq<Part>
    /** The analysis records (`$this->aParts`). */
    var info: seq<PartInfo>
    var tasks: seq<Task>
    /** The score as the analysis left it, before any variant changed it. */
    ghost var analysed: seq<Part>

    constructor(cfg: Config)
      ensures this.cfg == cfg && parts == [] && info == [] && tasks == []
    {
      this.cfg := cfg;
      source := Source("", "", "");
      version := "";
      parts, info, tasks := [], [], [];
      analysed := [];
    }

    predicate Valid()
      reads this
    {
      WellFormed(parts, info)
    }

    /** setVolume: writes the volume controller of every part and nothing else. */
    method SetVolume(focus: int, vThis: int, vOthers: int, vInstr: int)
      requires Valid()
      modifies this`parts
      ensures Valid()
      ensures VolumesSet(parts, old(parts), info, focus, vThis, vOthers, vInstr)
    {
      var j := 0;
      while j < |parts|
        invariant 0 <= j <= |parts| == |old(parts)|
        invariant WellFormed(parts, info)
        invariant SameButMixer(parts, old(parts), info)
        invariant forall i :: 0 <= i < |parts| ==> parts[i].program == old(parts)[i].program
        invariant forall i :: 0 <= i < j ==>
                    parts[i].controllers[info[i].volIdx].value
                    == VolumeFor(info[i].isVoice, i == focus, vThis, vOthers, vInstr)
        invariant forall i :: j <= i < |parts| ==> parts[i] == old(parts)[i]
      {
        var p := parts[j];
        var k := info[j].volIdx;
        var v := if info[j].isVoice then (if focus == j then vThis else vOthers) else vInstr;
        VolumeWriteKeeps(parts, old(parts), info, j, v);
        parts := parts[j := p.(controllers := p.controllers[k := p.controllers[k].(value := v)])];
        j := j + 1;
      }
    }

    /** setInstruments: sets the program of every voice part; instruments keep theirs. */
    method SetInstruments(prog: int)
      requires Valid()
      modifies this`parts
      ensures Valid()
      ensures ProgramsSet(parts, old(parts), info, prog)
    {
      var j := 0;
      while j < |parts|
        invariant 0 <= j <= |parts| == |old(parts)|
        invariant forall i :: 0 <= i < j ==>
                    parts[i] == if info[i].isVoice then old(parts)[i].(program := prog) else old(parts)[i]
        invariant forall i :: j <= i < |parts| ==> parts[i] == old(parts)[i]
      {
        if info[j].isVoice {
          parts := parts[j := parts[j].(program := prog)];
        }
        j := j + 1;
      }
    }

    /** prepareExport: appends the task of a variant with a copy of the current score. */
    method PrepareExport(title: string)
      modifies this`tasks
      ensures tasks == old(tasks) + [AudioTask(cfg, source, title, parts)]
    {
      tasks := tasks + [AudioTask(cfg, source, title, parts)];
    }

    /** The analysis loop of doRun: a volume controller for every part, and its record. */
    method Analyze()
      requires info == []
      modifies this`parts, this`info, this`analysed
      ensures Analysis(version, cfg.voices, old(parts), parts, info)
      ensures Valid() && analysed == parts
    {
      ghost var orig := parts;
      var i := 0;
      while i < |parts|
        invariant 0 <= i <= |parts| == |orig|
        invariant |info| == i
        invariant forall j :: i <= j < |parts| ==> parts[j] == orig[j]
        invariant forall j :: 0 <= j < i ==> AnalysedPart(version, cfg.voices, orig[j], parts[j], info[j])
      {
        var q, idx := EnsureVolumeCtrl(parts[i]);
        parts := parts[i := q];
        var voice := ClassifyPart(version, cfg.voices, q);
        info := info + [PartInfo(voice, q.longName, idx)];
        i := i + 1;
      }
      analysed := parts;
    }

    /** setVolume then prepareExport, on a score whose voices already play `prog`:
        one audio task whose work copy is the variant's Mix of `base`. */
    method ExportVariant(focus: int, vThis: int, vOthers: int, vInstr: int, title: string,
                         ghost prog: int, ghost base: seq<Part>)
      requires Valid() && WellFormed(base, info)
      requires SameButMixer(parts, base, info) && VoicesPlay(parts, info, prog)
      modifies this`parts, this`tasks
      ensures Valid() && SameButMixer(parts, base, info) && VoicesPlay(parts, info, prog)
      ensures parts == Mix(base, info, focus, vThis, vOthers, vInstr, prog)
      ensures tasks == old(tasks) + [AudioTask(cfg, source, title, Mix(base, info, focus, vThis, vOthers, vInstr, prog))]
    {
      ghost var p1 := parts;
      SetVolume(focus, vThis, vOthers, vInstr);
      VolumeStep(p1, parts, base, info, focus, vThis, vOthers, vInstr, prog);
      PrepareExport(title);
    }

    /** setInstruments on a score that differs from `base` only in its mixer. */
    method SwitchInstruments(prog: int, ghost base: seq<Part>)
      requires Valid() && WellFormed(base, info) && SameButMixer(parts, base, info)
      modifies this`parts
      ensures Valid() && SameButMixer(parts, base, info) && VoicesPlay(parts, info, prog)
    {
      ghost var p0 := parts;
      SetInstruments(prog);
      ProgramStep(p0, parts, base, info, prog);
    }

    /** The body of the voice loop for voice part `i`: its four variants. */
    method PlanVoice(i: nat, ghost base: seq<Part>)
      requires Valid() && WellFormed(base, info) && SameButMixer(parts, base, info)
      requires i < |parts| && info[i].isVoice
      modifies this`parts, this`tasks
      ensures Valid() && SameButMixer(parts, base, info)
      ensures tasks == old(tasks) + VariantTasks(cfg, source, base, info, i)
    {
      var name := info[i].longName;
      SwitchInstruments(ChoirAahs, base);
      ExportVariant(i, 100, 50, 100, "-" + name, ChoirAahs, base);
      ExportVariant(i, 0, 100, 100, "-" + name + " (Karaoke)", ChoirAahs, base);
      ExportVariant(i, 100, 0, 100, "-" + name + " (Solo)", ChoirAahs, base);
      SwitchInstruments(GrandPiano, base);
      ExportVariant(i, 100, 50, 50, "-" + name + " (Piano)", GrandPiano, base);
    }

    /** The two full mixes: every voice on `prog`, every part at volume 100. */
    method PlanAll(title: string, prog: int, ghost base: seq<Part>)
      requires Valid() && WellFormed(base, info) && SameButMixer(parts, base, info)
      modifies this`parts, this`tasks
      ensures Valid() && SameButMixer(parts, base, info)
      ensures parts == Mix(base, info, -1, 100, 100, 100, prog)
      ensures tasks == old(tasks) + [AudioTask(cfg, source, title, Mix(base, info, -1, 100, 100, 100, prog))]
    {
      SwitchInstruments(prog, base);
      ExportVariant(-1, 100, 100, 100, title, prog, base);
    }

    /** One pass of the voice loop: a voice part adds its four variants, an
        instrument part is skipped. */
    method PlanPart(i: nat, ghost base: seq<Part>)
      requires Valid() && WellFormed(base, info) && SameButMixer(parts, base, info)
      requires i < |base| && tasks == VoiceTasks(cfg, source, base, info, i)
      modifies this`parts, this`tasks
      ensures Valid() && SameButMixer(parts, base, info)
      ensures tasks == VoiceTasks(cfg, source, base, info, i + 1)
    {
      VoiceTasksStep(cfg, source, base, info, i);
      if info[i].isVoice {
        PlanVoice(i, base);
      }
    }

    /** The voice loop of doRun: the four variants of each voice part, in part order. */
    method PlanVoices(ghost base: seq<Part>)
      requires Valid() && WellFormed(base, info) && SameButMixer(parts, base, info) && tasks == []
      modifies this`parts, this`tasks
      ensures Valid() && SameButMixer(parts, base, info)
      ensures tasks == VoiceTasks(cfg, source, base, info, |base|)
    {
      var n := |parts|;
      var i := 0;
      while i < n
        invariant 0 <= i <= n == |base|
        invariant Valid() && SameButMixer(parts, base, info)
        invariant tasks == VoiceTasks(cfg, source, base, info, i)
      {
        PlanPart(i, base);
        i := i + 1;
      }
    }

    /** The end of the plan: the two full mixes, then the PDF of all parts. */
    method PlanTail(ghost base: seq<Part>)
      requires Valid() && WellFormed(base, info) && SameButMixer(parts, base, info)
      requires tasks == VoiceTasks(cfg, source, base, info, |base|)
      modifies this`parts, this`tasks
      ensures Valid()
      ensures parts == Mix(base, info, -1, 100, 100, 100, GrandPiano)
      ensures tasks == PlannedTasks(cfg, source, base, info)
    {
      ghost var voiceTasks := tasks;
      PlanAll("-Alle", ChoirAahs, base);
      PlanAll("-Alle (Piano)", GrandPiano, base);
      tasks := tasks + [PdfTask(cfg, source)];
      AppendThree(voiceTasks,
                  AudioTask(cfg, source, "-Alle", Mix(base, info, -1, 100, 100, 100, ChoirAahs)),
                  AudioTask(cfg, source, "-Alle (Piano)", Mix(base, info, -1, 100, 100, 100, GrandPiano)),
                  PdfTask(cfg, source));
    }

    /** The planning part of doRun: four variants per voice part, the two full mixes
        and the PDF task. */
    method Plan()
      requires Valid() && tasks == []
      modifies this`parts, this`tasks
      ensures Valid()
      ensures parts == Mix(old(parts), info, -1, 100, 100, 100, GrandPiano)
      ensures tasks == PlannedTasks(cfg, source, old(parts), info)
    {
      ghost var base := parts;
      PlanVoices(base);
      PlanTail(base);
    }

    /**
     * doRun of the base class: load the main score, analyse its parts and plan
     * the tasks; a score that cannot be loaded halts the run with no task planned.
     */
    method DoRun(fileName: string, archive: Archive) returns (r: Outcome<Halt>)
      requires parts == [] && info == [] && tasks == []
      modifies this`source, this`version, this`parts, this`info, this`analysed, this`tasks
      ensures r.Fail? ==> LoadFails(fileName, archive) && r.error == LoadHalt(fileName, archive) && tasks == []
      ensures r.Pass? ==>
                && source == SourceOf(fileName)
                && (exists s :: Loads(fileName, archive, s) && version == s.version
                                && Analysis(version, cfg.voices, s.parts, analysed, info))
                && WellFormed(analysed, info)
                && tasks == PlannedTasks(cfg, source, analysed, info)
                && parts == Mix(analysed, info, -1, 100, 100, 100, GrandPiano)
    {
      var loaded := Load(fileName, archive);
      if loaded.Failure? {
        return Fail(loaded.error);
      }
      var score := loaded.value;
      assert Loads(fileName, archive, score);
      Prepare(fileName, score);
      return Pass;
    }

    /** The part of doRun after loading: analysis of the loaded score, then planning. */
    method Prepare(fileName: string, score: Score)
      requires parts == [] && info == [] && tasks == []
      modifies this`source, this`version, this`parts, this`info, this`analysed, this`tasks
      ensures source == SourceOf(fileName)
      ensures version == score.version
      ensures Analysis(version, cfg.voices, score.parts, analysed, info)
      ensures WellFormed(analysed, info)
      ensures tasks == PlannedTasks(cfg, source, analysed, info)
      ensures parts == Mix(analysed, info, -1, 100, 100, 100, GrandPiano)
    {
      source := SourceOf(fileName);
      version := score.version;
      parts := score.parts;
      Analyze();
      Plan();
    }
  }
}
