/**
 * The single-threaded exporter: runs the planned tasks one after the other,
 * each as the MuseScore call followed by the deletion of its working copy.
 */
module SerialRunner {
  import opened Wrappers
  import opened Halts
  import opened ScoreModel
  import opened Planner

  /** What running tasks does outside the process: a MuseScore call, or the deletion of a file. */
  datatype Effect = Exec(command: Command) | Unlink(path: string)

  /** One task: its command, then its cleanup file when it names one. */
  function TaskEffects(t: Task): seq<Effect>
  {
    [Exec(t.command)] + (if t.cleanupPath != "" then [Unlink(t.cleanupPath)] else [])
  }

  /** The tasks of `ts`, each run to its end before the next starts. */
  function Effects(ts: seq<Task>): seq<Effect>
    decreases |ts|
  {
    if ts == [] then [] else Effects(ts[..|ts| - 1]) + TaskEffects(ts[|ts| - 1])
  }

  /** The MuseScore calls among `es`, in order. */
  function Commands(es: seq<Effect>): seq<Command>
    decreases |es|
  {
    if es == [] then []
    else Commands(es[..|es| - 1]) + (if es[|es| - 1].Exec? then [es[|es| - 1].command] else [])
  }

  /** The deleted files among `es`, in order. */
  function Unlinked(es: seq<Effect>): seq<string>
    decreases |es|
  {
    if es == [] then []
    else Unlinked(es[..|es| - 1]) + (if es[|es| - 1].Unlink? then [es[|es| - 1].path] else [])
  }

  /** The serial loop of the single-threaded doRun. */
  method RunSerial(tasks: seq<Task>) returns (effects: seq<Effect>)
    ensures effects == Effects(tasks)
  {
    effects := [];
    for i := 0 to |tasks|
      invariant effects == Effects(tasks[..i])
    {
      assert tasks[..i + 1][..i] == tasks[..i];
      effects := effects + [Exec(tasks[i].command)];
      if tasks[i].cleanupPath != "" {
        effects := effects + [Unlink(tasks[i].cleanupPath)];
      }
    }
    assert tasks[..|tasks|] == tasks;
  }

  lemma CommandsAppend(es: seq<Effect>, fs: seq<Effect>)
    ensures Commands(es + fs) == Commands(es) + Commands(fs)
    decreases |fs|
  {
    if fs != [] {
      assert (es + fs)[..|es + fs| - 1] == es + fs[..|fs| - 1];
      assert (es + fs)[|es + fs| - 1] == fs[|fs| - 1];
      CommandsAppend(es, fs[..|fs| - 1]);
    } else {
      assert es + fs == es;
    }
  }

  lemma UnlinkedAppend(es: seq<Effect>, fs: seq<Effect>)
    ensures Unlinked(es + fs) == Unlinked(es) + Unlinked(fs)
    decreases |fs|
  {
    if fs != [] {
      assert (es + fs)[..|es + fs| - 1] == es + fs[..|fs| - 1];
      assert (es + fs)[|es + fs| - 1] == fs[|fs| - 1];
      UnlinkedAppend(es, fs[..|fs| - 1]);
    } else {
      assert es + fs == es;
    }
  }

  lemma TaskCommands(t: Task)
    ensures Commands(TaskEffects(t)) == [t.command]
    ensures Unlinked(TaskEffects(t)) == if t.cleanupPath != "" then [t.cleanupPath] else []
  {
    var one := [Exec(t.command)];
    assert one[..0] == [];
    assert Commands(one) == [t.command] && Unlinked(one) == [];
    if t.cleanupPath != "" {
      var two := one + [Unlink(t.cleanupPath)];
      assert TaskEffects(t) == two;
      assert two[..1] == one;
      assert Commands(two) == Commands(one);
      assert Unlinked(two) == Unlinked(one) + [t.cleanupPath];
    } else {
      assert TaskEffects(t) == one;
    }
  }

  /** The serial runner calls MuseScore once per task, in task order. */
  lemma {:induction false} CommandsInOrder(ts: seq<Task>)
    ensures |Commands(Effects(ts))| == |ts|
    ensures forall i :: 0 <= i < |ts| ==> Commands(Effects(ts))[i] == ts[i].command
    decreases |ts|
  {
    if ts != [] {
      var last := ts[|ts| - 1];
      var init := ts[..|ts| - 1];
      CommandsInOrder(init);
      CommandsAppend(Effects(init), TaskEffects(last));
      TaskCommands(last);
      var cs := Commands(Effects(ts));
      assert cs == Commands(Effects(init)) + [last.command];
      forall i | 0 <= i < |ts| ensures cs[i] == ts[i].command {
        if i < |init| {
          assert cs[i] == Commands(Effects(init))[i] && init[i] == ts[i];
        }
      }
    }
  }

  /** It deletes exactly the non-empty cleanup paths, each once per task naming it. */
  lemma {:induction false} UnlinksExactly(ts: seq<Task>)
    ensures |Unlinked(Effects(ts))| <= |ts|
    ensures forall p :: p in Unlinked(Effects(ts)) <==> exists i :: 0 <= i < |ts| && ts[i].cleanupPath == p && p != ""
    decreases |ts|
  {
    if ts != [] {
      var last := ts[|ts| - 1];
      var init := ts[..|ts| - 1];
      UnlinksExactly(init);
      UnlinkedAppend(Effects(init), TaskEffects(last));
      TaskCommands(last);
      var us := Unlinked(Effects(ts));
      var u0 := Unlinked(Effects(init));
      assert us == u0 + (if last.cleanupPath != "" then [last.cleanupPath] else []);
      forall p
        ensures p in us <==> exists i :: 0 <= i < |ts| && ts[i].cleanupPath == p && p != ""
      {
        if p in us && p !in u0 {
          assert last.cleanupPath == p && p != "";
        }
        if p in u0 {
          var i :| 0 <= i < |init| && init[i].cleanupPath == p && p != "";
          assert ts[i].cleanupPath == p;
        }
        if exists i :: 0 <= i < |ts| && ts[i].cleanupPath == p && p != "" {
          var i :| 0 <= i < |ts| && ts[i].cleanupPath == p && p != "";
          if i < |ts| - 1 {
            assert init[i].cleanupPath == p;
          }
        }
      }
    }
  }

  /**
   * Running a planned task list serially deletes the working copy of every task
   * but the last and nothing else; the input file of the PDF task is never deleted
   * unless it coincides with a working copy.
   */
  lemma SerialRunDeletesWorkCopies(cfg: Config, src: Source, base: seq<Part>, info: seq<PartInfo>)
    requires WellFormed(base, info)
    ensures var ts := PlannedTasks(cfg, src, base, info);
            forall p :: p in Unlinked(Effects(ts)) <==>
                          exists t :: 0 <= t < |ts| - 1 && p == WorkCopy(cfg, src, ts[t].title)
  {
    var ts := PlannedTasks(cfg, src, base, info);
    PlanCleanup(cfg, src, base, info);
    UnlinksExactly(ts);
    forall p
      ensures p in Unlinked(Effects(ts)) <==> exists t :: 0 <= t < |ts| - 1 && p == WorkCopy(cfg, src, ts[t].title)
    {
      if p in Unlinked(Effects(ts)) {
        var i :| 0 <= i < |ts| && ts[i].cleanupPath == p && p != "";
        assert i < |ts| - 1;
      }
      if exists t :: 0 <= t < |ts| - 1 && p == WorkCopy(cfg, src, ts[t].title) {
        var t :| 0 <= t < |ts| - 1 && p == WorkCopy(cfg, src, ts[t].title);
        assert ts[t].cleanupPath == p && p != "";
      }
    }
  }

  /** doRun of the single-threaded exporter: plan, then run every task in order. */
  method ExportSingleThreaded(e: Exporter, fileName: string, archive: Archive)
    returns (r: Outcome<Halt>, effects: seq<Effect>)
    requires e.parts == [] && e.info == [] && e.tasks == []
    modifies e
    ensures r.Fail? ==> LoadFails(fileName, archive) && r.error == LoadHalt(fileName, archive)
                        && e.tasks == [] && effects == []
    ensures r.Pass? ==> && e.source == SourceOf(fileName)
                        && (exists s :: Loads(fileName, archive, s) && e.version == s.version
                                        && Analysis(e.version, e.cfg.voices, s.parts, e.analysed, e.info))
                        && WellFormed(e.analysed, e.info)
                        && e.tasks == PlannedTasks(e.cfg, e.source, e.analysed, e.info)
                        && effects == Effects(e.tasks)
  {
    r := e.DoRun(fileName, archive);
    if r.Fail? {
      return r, [];
    }
    effects := RunSerial(e.tasks);
  }
}
