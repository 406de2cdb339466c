/**
 * The working copies prepareExport writes. Each is the input archive copied
 * under `WorkCopy`'s name, with the mixed score stored under the entry
 * `<stem>.mscx`. The per-task snapshot of the plan is what MuseScore
 * renders only under two conditions, which this module states:
 *   - no two tasks share a working copy, which holds when the voice parts'
 *     long names keep the titles apart;
 *   - the input's main-score rootfile is the entry `<stem>.mscx`.
 */
module WorkCopies {
  import opened Wrappers
  import opened Paths
  import opened ScoreModel
  import opened Planner

  /** The suffix of the m-th variant title of a voice part. */
  function Suffix(m: nat): string
    requires m < 4
  {
    ["", " (Karaoke)", " (Solo)", " (Piano)"][m]
  }

  /** A long name whose last character is ')', which could run into a variant's suffix. */
  predicate EndsWithParen(name: string)
  {
    |name| > 0 && name[|name| - 1] == ')'
  }

  /**
   * The long names of the voice parts keep the variant titles apart: they are
   * pairwise different, none is "Alle", and none ends with ')'.
   */
  predicate DistinctLabels(info: seq<PartInfo>)
  {
    && (forall j :: 0 <= j < |info| && info[j].isVoice ==>
          info[j].longName != "Alle" && !EndsWithParen(info[j].longName))
    && (forall j1, j2 :: 0 <= j1 < j2 < |info| && info[j1].isVoice && info[j2].isVoice ==>
          info[j1].longName != info[j2].longName)
  }

  /** The m-th variant of voice part i is titled "-<long name><suffix m>". */
  lemma VariantTitle(cfg: Config, src: Source, base: seq<Part>, info: seq<PartInfo>, i: nat, m: nat)
    requires WellFormed(base, info) && i < |base| && m < 4
    ensures VariantTasks(cfg, src, base, info, i)[m].title == "-" + info[i].longName + Suffix(m)
  {
    assert "-" + info[i].longName + "" == "-" + info[i].longName;
  }

  /** `x + suf` ends with `suf`: its last |suf| characters are those of `suf`. */
  lemma SuffixAt(x: string, suf: string, k: nat)
    requires k < |suf|
    ensures (x + suf)[|x + suf| - |suf| + k] == suf[k]
  {
  }

  /** A title with the shorter of two different suffixes differs from any title with the longer one. */
  lemma ShorterSuffix(n1: string, m1: nat, n2: string, m2: nat)
    requires m1 < 4 && m2 < 4 && |Suffix(m1)| < |Suffix(m2)|
    requires !EndsWithParen(n1)
    ensures "-" + n1 + Suffix(m1) != "-" + n2 + Suffix(m2)
  {
    var s1, s2 := Suffix(m1), Suffix(m2);
    var w1, w2 := "-" + n1 + s1, "-" + n2 + s2;
    if |w1| == |w2| {
      SuffixAt("-" + n2, s2, |s2| - 1);
      if m1 == 0 {
        assert w1 == "-" + n1;
        assert w1[|w1| - 1] != ')' == w2[|w2| - 1];
      } else {
        SuffixAt("-" + n1, s1, 0);
        SuffixAt("-" + n2, s2, |s2| - |s1|);
        assert w1[|w1| - |s1|] == ' ' != w2[|w2| - |s1|];
      }
    }
  }

  /** A title "-<name><suffix>" determines the name and the suffix, for names not ending in ')'. */
  lemma LabelInjective(n1: string, m1: nat, n2: string, m2: nat)
    requires m1 < 4 && m2 < 4 && !EndsWithParen(n1) && !EndsWithParen(n2)
    ensures "-" + n1 + Suffix(m1) == "-" + n2 + Suffix(m2) ==> n1 == n2 && m1 == m2
  {
    var s1, s2 := Suffix(m1), Suffix(m2);
    if |s1| < |s2| {
      ShorterSuffix(n1, m1, n2, m2);
    } else if |s2| < |s1| {
      ShorterSuffix(n2, m2, n1, m1);
    } else {
      assert m1 == m2;
      var w := "-" + n1 + s1;
      if w == "-" + n2 + s2 {
        assert w[1..|w| - |s1|] == n1;
        assert ("-" + n2 + s2)[1..|w| - |s2|] == n2;
      }
    }
  }

  /** Different titles give different working copies. */
  lemma WorkCopyInjective(cfg: Config, src: Source, t1: string, t2: string)
    requires WorkCopy(cfg, src, t1) == WorkCopy(cfg, src, t2)
    ensures t1 == t2
  {
    var pre := cfg.workDir + cfg.sep + src.stem;
    assert WorkCopy(cfg, src, t1) == pre + t1 + ("." + src.ext);
    assert WorkCopy(cfg, src, t2) == pre + t2 + ("." + src.ext);
    assert (pre + t1 + ("." + src.ext))[|pre|..|pre| + |t1|] == t1;
    assert (pre + t2 + ("." + src.ext))[|pre|..|pre| + |t2|] == t2;
  }

  /**
   * Task `a` of the plan, for a below the PDF task, is titled "-<name><suffix m>":
   * the k-th voice part's name with m = a - 4k for the voice tasks, and "Alle"
   * with the plain and the piano suffix for the two full mixes.
   */
  lemma TaskLabel(cfg: Config, src: Source, base: seq<Part>, info: seq<PartInfo>, a: nat)
    returns (name: string, m: nat, k: nat)
    requires WellFormed(base, info) && DistinctLabels(info)
    requires a < |PlannedTasks(cfg, src, base, info)| - 1
    ensures m < 4 && !EndsWithParen(name)
    ensures PlannedTasks(cfg, src, base, info)[a].title == "-" + name + Suffix(m)
    ensures var vs := VoiceIndices(info, |info|);
            && (a < 4 * |vs| ==> k < |vs| && a == 4 * k + m && name == info[vs[k]].longName)
            && (a >= 4 * |vs| ==> name == "Alle" && (a == 4 * |vs| ==> m == 0) && (a > 4 * |vs| ==> m == 3))
  {
    var ts := PlannedTasks(cfg, src, base, info);
    var vs := VoiceIndices(info, |info|);
    PlanLayout(cfg, src, base, info);
    if a < 4 * |vs| {
      k := a / 4;
      m := a % 4;
      assert ts[a] == ts[4 * k .. 4 * k + 4][m];
      VoiceIndicesAreVoices(info, |info|);
      VariantTitle(cfg, src, base, info, vs[k], m);
      name := info[vs[k]].longName;
    } else if a == 4 * |vs| {
      name, m, k := "Alle", 0, 0;
      assert "-" + "Alle" + "" == "-Alle";
    } else {
      name, m, k := "Alle", 3, 0;
      assert "-" + "Alle" + " (Piano)" == "-Alle (Piano)";
    }
  }

  /** Under DistinctLabels no two tasks of the plan carry the same title, PDF task aside. */
  lemma TitlesDistinct(cfg: Config, src: Source, base: seq<Part>, info: seq<PartInfo>, a: nat, b: nat)
    requires WellFormed(base, info) && DistinctLabels(info)
    requires a < b < |PlannedTasks(cfg, src, base, info)| - 1
    ensures PlannedTasks(cfg, src, base, info)[a].title != PlannedTasks(cfg, src, base, info)[b].title
  {
    var ts := PlannedTasks(cfg, src, base, info);
    var vs := VoiceIndices(info, |info|);
    var n1, m1, k1 := TaskLabel(cfg, src, base, info, a);
    var n2, m2, k2 := TaskLabel(cfg, src, base, info, b);
    VoiceIndicesAreVoices(info, |info|);
    if b < 4 * |vs| {
      if k1 < k2 {
        VoiceIndicesIncreasing(info, |info|);
        assert vs[k1] < vs[k2];
        assert n1 != n2;
      } else {
        assert m1 != m2;
      }
    } else if a < 4 * |vs| {
      assert n1 != n2;
    } else {
      assert m1 != m2;
    }
    LabelInjective(n1, m1, n2, m2);
  }

  /**
   * Under DistinctLabels every task of the plan but the PDF one has a working copy
   * of its own: no later prepareExport overwrites it and no other task deletes it.
   */
  lemma WorkCopiesDistinct(cfg: Config, src: Source, base: seq<Part>, info: seq<PartInfo>)
    requires WellFormed(base, info) && DistinctLabels(info)
    ensures var ts := PlannedTasks(cfg, src, base, info);
            forall a, b :: 0 <= a < b < |ts| - 1 ==> ts[a].cleanupPath != ts[b].cleanupPath
  {
    var ts := PlannedTasks(cfg, src, base, info);
    PlanCleanup(cfg, src, base, info);
    forall a, b | 0 <= a < b < |ts| - 1
      ensures ts[a].cleanupPath != ts[b].cleanupPath
    {
      TitlesDistinct(cfg, src, base, info, a, b);
      if ts[a].cleanupPath == ts[b].cleanupPath {
        WorkCopyInjective(cfg, src, ts[a].title, ts[b].title);
      }
    }
  }

  /**
   * As msexport is written, two voice parts with the same long name share all four
   * working copies, although their first variants carry different scores: the later
   * copy overwrites the earlier one, and the earlier task deletes the file the later
   * one still has to render.
   */
  lemma SameNameSharesWorkCopy(cfg: Config, src: Source, base: seq<Part>, info: seq<PartInfo>, i: nat, j: nat)
    requires WellFormed(base, info) && i < j < |base|
    requires info[i].isVoice && info[j].isVoice && info[i].longName == info[j].longName
    ensures forall m :: 0 <= m < 4 ==>
              VariantTasks(cfg, src, base, info, i)[m].cleanupPath == VariantTasks(cfg, src, base, info, j)[m].cleanupPath
    ensures VariantTasks(cfg, src, base, info, i)[0].snapshot != VariantTasks(cfg, src, base, info, j)[0].snapshot
  {
    var mi := Mix(base, info, i, 100, 50, 100, ChoirAahs);
    var mj := Mix(base, info, j, 100, 50, 100, ChoirAahs);
    MixIsMix(base, info, i, 100, 50, 100, ChoirAahs);
    MixIsMix(base, info, j, 100, 50, 100, ChoirAahs);
    assert mi[i].controllers[info[i].volIdx].value == 100;
    assert mj[i].controllers[info[i].volIdx].value == 50;
  }

  /** The entry line 144 stores the mixed score under: the input's stem with ".mscx". */
  function CopyEntry(src: Source): string
  {
    src.stem + ".mscx"
  }

  /** The working copy: the input archive with the score `sc` stored under CopyEntry. */
  function WrittenCopy(archive: Archive, src: Source, sc: Score): Archive
  {
    archive.(entries := archive.entries[CopyEntry(src) := sc])
  }

  /** `path` is the first main-score rootfile of `archive`. */
  ghost predicate MainEntry(archive: Archive, path: string)
  {
    archive.rootfiles.Some? &&
    exists i :: FirstMainScore(archive.rootfiles.value, i) && archive.rootfiles.value[i] == path
  }

  /**
   * Read through the same rootfile selection, the working copy yields the mixed
   * score exactly when the input's main-score rootfile is `<stem>.mscx`. Otherwise it
   * yields the input's own score, with the mixer the analysis left.
   */
  lemma CopyLoads(fileName: string, copyName: string, archive: Archive, s: Score, sc: Score)
    requires Loads(fileName, archive, s) && copyName != ""
    ensures MainEntry(archive, CopyEntry(SourceOf(fileName))) ==>
              Loads(copyName, WrittenCopy(archive, SourceOf(fileName), sc), sc)
    ensures !MainEntry(archive, CopyEntry(SourceOf(fileName))) ==>
              Loads(copyName, WrittenCopy(archive, SourceOf(fileName), sc), s)
  {
    var rootfiles := archive.rootfiles.value;
    var key := CopyEntry(SourceOf(fileName));
    var i :| FirstMainScore(rootfiles, i) && rootfiles[i] in archive.entries && archive.entries[rootfiles[i]] == s;
    if MainEntry(archive, key) {
      var j :| FirstMainScore(rootfiles, j) && rootfiles[j] == key;
      FirstMainScoreUnique(rootfiles, i, j);
      assert WrittenCopy(archive, SourceOf(fileName), sc).entries[rootfiles[i]] == sc;
    } else {
      assert rootfiles[i] != key;
      assert WrittenCopy(archive, SourceOf(fileName), sc).entries[rootfiles[i]] == s;
    }
  }
}
