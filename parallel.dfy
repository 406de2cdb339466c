/**
 * The multi-threaded exporter: the same analysis and planning as the serial
 * one, then the planned tasks handed to worker slots by the dispatch loop.
 */
module ParallelRunner {
  import opened Wrappers
  import opened Halts
  import opened Planner
  import opened SerialRunner
  import opened Dispatcher

  /** The work of the tasks with indices `started`, each a MuseScore call and its cleanup. */
  function LaunchedEffects(tasks: seq<Task>, started: seq<nat>): seq<Effect>
    requires forall k :: 0 <= k < |started| ==> started[k] < |tasks|
    decreases |started|
  {
    if started == [] then []
    else LaunchedEffects(tasks, started[..|started| - 1]) + TaskEffects(tasks[started[|started| - 1]])
  }

  /** Launching the tasks in index order is the serial runner's work. */
  lemma {:induction false} LaunchedInIndexOrder(tasks: seq<Task>, k: nat)
    requires k <= |tasks|
    ensures LaunchedEffects(tasks, Iota(k)) == Effects(tasks[..k])
    decreases k
  {
    if k > 0 {
      assert Iota(k)[..k - 1] == Iota(k - 1);
      assert tasks[..k][..k - 1] == tasks[..k - 1];
      LaunchedInIndexOrder(tasks, k - 1);
    }
  }

  /**
   * The dispatch loop of the multi-threaded doRun over the planned `tasks` and
   * `maxThreads` slots, where the run of task t is done from pass finish[t] on.
   * `launched` is what the workers do, task by task, in the order the tasks were
   * handed out; the runs themselves overlap in time.
   */
  method Dispatch(tasks: seq<Task>, maxThreads: nat, finish: seq<nat>)
    returns (events: seq<Event>, launched: seq<Effect>)
    ensures maxThreads > 0 ==>
              && Starts(events) == Iota(|tasks|)
              && launched == Effects(tasks)
              && forall t :: 0 <= t < |tasks| ==> Reported(events, t)
    ensures maxThreads == 1 ==> Finishes(events) == Iota(|tasks|)
    ensures maxThreads == 0 ==> events == [] && launched == []
  {
    var d := new SlotDispatcher(|tasks|, maxThreads, finish);
    d.Run();
    events := d.events;
    var started := Starts(events);
    assert started == Iota(d.cursor);
    launched := LaunchedEffects(tasks, started);
    if maxThreads > 0 {
      LaunchedInIndexOrder(tasks, |tasks|);
      assert tasks[..|tasks|] == tasks;
    } else {
      assert Iota(0) == [];
    }
  }

  /** The multi-threaded doRun: analysis and planning, then the dispatch loop. */
  method ExportMultiThreaded(e: Exporter, fileName: string, archive: Archive,
                             maxThreads: nat, finish: seq<nat>)
    returns (r: Outcome<Halt>, events: seq<Event>, launched: seq<Effect>)
    requires e.parts == [] && e.info == [] && e.tasks == []
    modifies e
    ensures r.Fail? ==> LoadFails(fileName, archive) && r.error == LoadHalt(fileName, archive)
                        && e.tasks == [] && events == [] && launched == []
    ensures r.Pass? ==> && e.source == SourceOf(fileName)
                        && (exists s :: Loads(fileName, archive, s) && e.version == s.version
                                        && Analysis(e.version, e.cfg.voices, s.parts, e.analysed, e.info))
                        && WellFormed(e.analysed, e.info)
                        && e.tasks == PlannedTasks(e.cfg, e.source, e.analysed, e.info)
    ensures r.Pass? && maxThreads > 0 ==>
              && Starts(events) == Iota(|e.tasks|)
              && launched == Effects(e.tasks)
              && forall t :: 0 <= t < |e.tasks| ==> Reported(events, t)
    ensures r.Pass? && maxThreads == 1 ==> Finishes(events) == Iota(|e.tasks|)
    ensures maxThreads == 0 ==> events == [] && launched == []
  {
    r := e.DoRun(fileName, archive);
    if r.Fail? {
      return r, [], [];
    }
    events, launched := Dispatch(e.tasks, maxThreads, finish);
  }
}
