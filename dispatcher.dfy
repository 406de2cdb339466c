/**
 * The multi-threaded exporter's dispatch loop: a map of slots (`$threads`),
 * a generator over task indices, and passes over the slots in key order
 * until the map is empty. Whether a run has finished (`done()`) is the only
 * input from outside; here the run of task t reports done from pass
 * `finish[t]` on.
 */
module Dispatcher {
  import opened Wrappers

  /** One entry of `$threads`: `is_active`, and the task whose run the slot holds, if any. */
  datatype Slot = Slot(active: bool, run: Option<nat>)

  /** What the loop does that can be seen: hand a task to a slot, report a run as
      finished, destroy a slot. */
  datatype Event = Started(slot: nat, task: nat) | Finished(slot: nat, task: nat) | Removed(slot: nat)

  /** The loop's state: the slot map, the generator's position, and the events so far. */
  datatype State = State(threads: map<nat, Slot>, cursor: nat, events: seq<Event>)

  /** `done()` on the run of `task` during pass `pass`. */
  predicate Done(finish: seq<nat>, task: nat, pass: nat)
  {
    task >= |finish| || finish[task] <= pass
  }

  /** The first pass from which every run reports done. */
  function AllDone(finish: seq<nat>): (b: nat)
    ensures forall t :: 0 <= t < |finish| ==> finish[t] <= b
    decreases |finish|
  {
    if finish == [] then 0
    else var b := AllDone(finish[..|finish| - 1]);
         if finish[|finish| - 1] > b then finish[|finish| - 1] else b
  }

  /** `$threads` as array_fill(1, m, ['is_active' => false]) creates it. */
  function InitialSlots(m: nat): (t: map<nat, Slot>)
    ensures forall id :: id in t <==> 1 <= id <= m
    ensures forall id :: id in t ==> t[id] == Slot(false, None)
  {
    if m == 0 then map[] else InitialSlots(m - 1)[m := Slot(false, None)]
  }

  /** `r` is strictly increasing. */
  predicate Increasing(r: seq<nat>)
  {
    forall k1, k2 :: 0 <= k1 < k2 < |r| ==> r[k1] < r[k2]
  }

  lemma IncreasingAppend(r: seq<nat>, x: nat)
    requires Increasing(r) && forall k :: 0 <= k < |r| ==> r[k] < x
    ensures Increasing(r + [x])
  {
    forall k1, k2 | 0 <= k1 < k2 < |r + [x]| ensures (r + [x])[k1] < (r + [x])[k2] {
      assert (r + [x])[k1] == r[k1];
      if k2 < |r| {
        assert (r + [x])[k2] == r[k2];
      }
    }
  }

  /** The keys of `t` among 1..m in ascending order: the order foreach visits them. */
  function SlotIds(t: map<nat, Slot>, m: nat): (r: seq<nat>)
    ensures forall k :: 0 <= k < |r| ==> r[k] in t && 1 <= r[k] <= m
    ensures forall id :: id in t && 1 <= id <= m ==> id in r
    ensures Increasing(r)
    ensures t == map[] ==> r == []
    decreases m
  {
    if m == 0 then []
    else
      var r := SlotIds(t, m - 1);
      if m in t then IncreasingAppend(r, m); r + [m] else r
  }

  /**
   * One slot of one pass: an inactive slot takes the next task while there is
   * one; otherwise a slot without a run is destroyed; otherwise, when its run is
   * done, the run is reported and the slot is destroyed if the generator is
   * exhausted or made inactive (keeping its run) if not.
   */
  function Visit(s: State, id: nat, n: nat, finish: seq<nat>, pass: nat): (r: State)
    requires id in s.threads
    ensures s.cursor <= r.cursor <= s.cursor + 1
    ensures r.threads.Keys <= s.threads.Keys
    ensures forall k :: k in s.threads && k != id ==> k in r.threads && r.threads[k] == s.threads[k]
    ensures r.cursor > s.cursor ==> s.cursor < n && !s.threads[id].active
                                    && id in r.threads && r.threads[id] == Slot(true, Some(s.cursor))
    ensures id !in r.threads ==> (s.cursor >= n || s.threads[id].active)
                                 && (s.threads[id].run.None? || Done(finish, s.threads[id].run.value, pass))
    ensures s.cursor >= n && s.threads[id].run.None? ==> id !in r.threads
  {
    var slot := s.threads[id];
    if !slot.active && s.cursor < n then
      State(s.threads[id := Slot(true, Some(s.cursor))], s.cursor + 1, s.events + [Started(id, s.cursor)])
    else if slot.run.None? then
      State(s.threads - {id}, s.cursor, s.events + [Removed(id)])
    else if Done(finish, slot.run.value, pass) then
      if s.cursor >= n then
        State(s.threads - {id}, s.cursor, s.events + [Finished(id, slot.run.value), Removed(id)])
      else
        State(s.threads[id := Slot(false, slot.run)], s.cursor, s.events + [Finished(id, slot.run.value)])
    else
      s
  }

  /** `ids` are distinct keys of `t`. */
  predicate Sweepable(t: map<nat, Slot>, ids: seq<nat>)
  {
    (forall k :: 0 <= k < |ids| ==> ids[k] in t) && Increasing(ids)
  }

  /** The foreach over `ids`, visiting each slot in turn. */
  function Sweep(s: State, ids: seq<nat>, n: nat, finish: seq<nat>, pass: nat): (r: State)
    requires Sweepable(s.threads, ids)
    ensures r.cursor >= s.cursor
    ensures r.threads.Keys <= s.threads.Keys
    decreases |ids|
  {
    if ids == [] then s
    else
      var s1 := Visit(s, ids[0], n, finish, pass);
      assert Sweepable(s1.threads, ids[1..]) by {
        forall k | 0 <= k < |ids[1..]| ensures ids[1..][k] in s1.threads {
          assert ids[1..][k] == ids[k + 1] != ids[0];
        }
      }
      Sweep(s1, ids[1..], n, finish, pass)
  }

  /** One step of the foreach: visit the first slot, then sweep the rest. */
  lemma SweepStep(s: State, ids: seq<nat>, n: nat, finish: seq<nat>, pass: nat)
    requires Sweepable(s.threads, ids) && ids != []
    ensures Sweepable(Visit(s, ids[0], n, finish, pass).threads, ids[1..])
    ensures Sweep(s, ids, n, finish, pass) == Sweep(Visit(s, ids[0], n, finish, pass), ids[1..], n, finish, pass)
  {
    var s1 := Visit(s, ids[0], n, finish, pass);
    forall k | 0 <= k < |ids[1..]| ensures ids[1..][k] in s1.threads {
      assert ids[1..][k] == ids[k + 1] != ids[0];
    }
  }

  /** One pass of the while loop over the slots 1..m that are still there. */
  function Round(s: State, m: nat, n: nat, finish: seq<nat>, pass: nat): State
  {
    Sweep(s, SlotIds(s.threads, m), n, finish, pass)
  }

  /** The task indices of the Started events, in order. */
  function Starts(es: seq<Event>): seq<nat>
    decreases |es|
  {
    if es == [] then []
    else Starts(es[..|es| - 1]) + (if es[|es| - 1].Started? then [es[|es| - 1].task] else [])
  }

  /** The task indices of the Finished events, in order. */
  function Finishes(es: seq<Event>): seq<nat>
    decreases |es|
  {
    if es == [] then []
    else Finishes(es[..|es| - 1]) + (if es[|es| - 1].Finished? then [es[|es| - 1].task] else [])
  }

  /** 0, 1, ..., k - 1. */
  function Iota(k: nat): (r: seq<nat>)
    ensures |r| == k && forall i :: 0 <= i < k ==> r[i] == i
  {
    seq(k, i requires 0 <= i < k => i)
  }

  /** The run of task `t` has been reported finished. */
  ghost predicate Reported(es: seq<Event>, t: nat)
  {
    exists i :: 0 <= i < |es| && es[i] == Finished(es[i].slot, t)
  }

  /** The slots whose `is_active` is set. */
  function ActiveIds(t: map<nat, Slot>): set<nat>
  {
    set id | id in t && t[id].active
  }

  /** The tasks handed out whose run has not been reported finished. */
  ghost function InFlight(s: State): set<nat>
  {
    set t | 0 <= t < s.cursor && !Reported(s.events, t)
  }

  /**
   * The slot map's part of the loop invariant, for slots 1..m and n tasks.
   */
  ghost predicate SlotsOk(s: State, n: nat, m: nat)
  {
    && s.cursor <= n
    && (forall id :: id in s.threads ==> 1 <= id <= m)
    // no slot is destroyed while the generator still has tasks
    && (s.cursor < n ==> forall id :: 1 <= id <= m ==> id in s.threads)
    && (forall id :: id in s.threads && s.threads[id].active ==> s.threads[id].run.Some?)
    && (forall id :: id in s.threads && s.threads[id].run.Some? ==> s.threads[id].run.value < s.cursor)
    // a run is held by one slot only
    && (forall id1, id2 :: id1 in s.threads && id2 in s.threads && id1 != id2
          && s.threads[id1].run.Some? && s.threads[id2].run.Some?
          ==> s.threads[id1].run.value != s.threads[id2].run.value)
  }

  /** A task handed out is reported finished or still runs on an active slot. */
  ghost predicate Covered(s: State)
  {
    forall t :: 0 <= t < s.cursor && !Reported(s.events, t) ==>
      exists id :: id in s.threads && s.threads[id].active && s.threads[id].run == Some(t)
  }

  /** The invariant of the dispatch loop; tasks are handed out once each, in index order. */
  ghost predicate Inv(s: State, n: nat, m: nat)
  {
    SlotsOk(s, n, m) && Starts(s.events) == Iota(s.cursor) && Covered(s)
  }

  lemma StartsAppend(es: seq<Event>, fs: seq<Event>)
    ensures Starts(es + fs) == Starts(es) + Starts(fs)
    decreases |fs|
  {
    if fs != [] {
      assert (es + fs)[..|es + fs| - 1] == es + fs[..|fs| - 1];
      assert (es + fs)[|es + fs| - 1] == fs[|fs| - 1];
      StartsAppend(es, fs[..|fs| - 1]);
    } else {
      assert es + fs == es;
    }
  }

  lemma StartsOne(e: Event)
    ensures Starts([e]) == if e.Started? then [e.task] else []
  {
    assert [e][..0] == [];
  }

  /** Events without a start add no started task. */
  lemma {:induction false} StartsNone(fs: seq<Event>)
    requires forall k :: 0 <= k < |fs| ==> !fs[k].Started?
    ensures Starts(fs) == []
    decreases |fs|
  {
    if fs != [] {
      StartsNone(fs[..|fs| - 1]);
    }
  }

  /** Appending to the log keeps it as a prefix and appends the started tasks. */
  lemma LogExtended(es: seq<Event>, fs: seq<Event>)
    ensures |es + fs| >= |es| && (es + fs)[..|es|] == es
    ensures Starts(es + fs) == Starts(es) + Starts(fs)
  {
    StartsAppend(es, fs);
  }

  /** A visit extends the event log, starts at most the task at the cursor, and
      reports the run of a slot it finds done. */
  lemma VisitEvents(s: State, id: nat, n: nat, finish: seq<nat>, pass: nat)
    requires id in s.threads
    ensures var r := Visit(s, id, n, finish, pass);
            && |r.events| >= |s.events| && r.events[..|s.events|] == s.events
            && Starts(r.events) == Starts(s.events) + (if r.cursor > s.cursor then [s.cursor] else [])
            && (var slot := s.threads[id];
                slot.run.Some? && Done(finish, slot.run.value, pass) && !(!slot.active && s.cursor < n)
                ==> Reported(r.events, slot.run.value))
  {
    var r := Visit(s, id, n, finish, pass);
    var slot := s.threads[id];
    var fs: seq<Event>;
    if !slot.active && s.cursor < n {
      fs := [Started(id, s.cursor)];
      StartsOne(Started(id, s.cursor));
    } else if slot.run.None? {
      fs := [Removed(id)];
      StartsNone(fs);
    } else if Done(finish, slot.run.value, pass) {
      var t := slot.run.value;
      fs := if s.cursor >= n then [Finished(id, t), Removed(id)] else [Finished(id, t)];
      StartsNone(fs);
      assert (s.events + fs)[|s.events|] == Finished(id, t);
    } else {
      fs := [];
    }
    assert r.events == s.events + fs;
    LogExtended(s.events, fs);
  }

  lemma VisitKeepsSlotsOk(s: State, id: nat, n: nat, m: nat, finish: seq<nat>, pass: nat)
    requires SlotsOk(s, n, m) && id in s.threads
    ensures SlotsOk(Visit(s, id, n, finish, pass), n, m)
  {
  }

  lemma VisitKeepsCovered(s: State, id: nat, n: nat, m: nat, finish: seq<nat>, pass: nat)
    requires SlotsOk(s, n, m) && Covered(s) && id in s.threads
    ensures Covered(Visit(s, id, n, finish, pass))
  {
    var r := Visit(s, id, n, finish, pass);
    VisitEvents(s, id, n, finish, pass);
    forall u | 0 <= u < r.cursor && !Reported(r.events, u)
      ensures exists k :: k in r.threads && r.threads[k].active && r.threads[k].run == Some(u)
    {
      if u < s.cursor {
        assert !Reported(s.events, u);
        var k :| k in s.threads && s.threads[k].active && s.threads[k].run == Some(u);
        if k != id {
          assert r.threads[k] == s.threads[k];
        } else {
          assert r == s;
        }
      } else {
        assert r.threads[id] == Slot(true, Some(u));
      }
    }
  }

  /** Every visit keeps the invariant. */
  lemma VisitKeepsInv(s: State, id: nat, n: nat, m: nat, finish: seq<nat>, pass: nat)
    requires Inv(s, n, m) && id in s.threads
    ensures Inv(Visit(s, id, n, finish, pass), n, m)
  {
    VisitEvents(s, id, n, finish, pass);
    VisitKeepsSlotsOk(s, id, n, m, finish, pass);
    VisitKeepsCovered(s, id, n, m, finish, pass);
  }

  /** Under the invariant a slot is destroyed only once the generator is exhausted,
      and only when it holds no run or its run is done. */
  lemma VisitRemoves(s: State, id: nat, n: nat, m: nat, finish: seq<nat>, pass: nat)
    requires Inv(s, n, m) && id in s.threads
    ensures id !in Visit(s, id, n, finish, pass).threads ==>
              && s.cursor >= n
              && (s.threads[id].run.None? || Done(finish, s.threads[id].run.value, pass))
  {
    VisitKeepsInv(s, id, n, m, finish, pass);
  }

  /** Every pass keeps the invariant. */
  lemma {:induction false} SweepKeepsInv(s: State, ids: seq<nat>, n: nat, m: nat, finish: seq<nat>, pass: nat)
    requires Inv(s, n, m) && Sweepable(s.threads, ids)
    ensures Inv(Sweep(s, ids, n, finish, pass), n, m)
    decreases |ids|
  {
    if ids != [] {
      VisitKeepsInv(s, ids[0], n, m, finish, pass);
      var s1 := Visit(s, ids[0], n, finish, pass);
      SweepStep(s, ids, n, finish, pass);
      SweepKeepsInv(s1, ids[1..], n, m, finish, pass);
    }
  }

  /** A pass over `ids` leaves the slots outside `ids` as they were. */
  lemma {:induction false} SweepKeepsOthers(s: State, ids: seq<nat>, n: nat, finish: seq<nat>, pass: nat)
    requires Sweepable(s.threads, ids)
    ensures var r := Sweep(s, ids, n, finish, pass);
            forall id :: id in s.threads && id !in ids ==> id in r.threads && r.threads[id] == s.threads[id]
    decreases |ids|
  {
    if ids != [] {
      SweepStep(s, ids, n, finish, pass);
      var s1 := Visit(s, ids[0], n, finish, pass);
      SweepKeepsOthers(s1, ids[1..], n, finish, pass);
      forall id | id in s.threads && id !in ids
        ensures id in s1.threads && s1.threads[id] == s.threads[id] && id !in ids[1..]
      {
        assert id != ids[0];
      }
    }
  }

  /**
   * Once every run is done, a pass over distinct slots hands out a task,
   * destroys a slot, or else turns each slot it visits from active to inactive.
   */
  lemma {:induction false} SweepWhenAllDone(s: State, ids: seq<nat>, n: nat, finish: seq<nat>, pass: nat)
    requires Sweepable(s.threads, ids)
    requires pass >= AllDone(finish)
    ensures var r := Sweep(s, ids, n, finish, pass);
            r.cursor == s.cursor && r.threads.Keys == s.threads.Keys ==>
              forall id :: id in ids ==> s.threads[id].active && !r.threads[id].active
    decreases |ids|
  {
    if ids != [] {
      SweepStep(s, ids, n, finish, pass);
      var s1 := Visit(s, ids[0], n, finish, pass);
      var r := Sweep(s1, ids[1..], n, finish, pass);
      if r.cursor == s.cursor && r.threads.Keys == s.threads.Keys {
        assert s1.cursor == s.cursor && s1.threads.Keys == s.threads.Keys;
        SweepWhenAllDone(s1, ids[1..], n, finish, pass);
        SweepKeepsOthers(s1, ids[1..], n, finish, pass);
        assert ids[0] !in ids[1..] by {
          forall k | 0 <= k < |ids[1..]| ensures ids[1..][k] != ids[0] {
            assert ids[1..][k] == ids[k + 1];
          }
        }
        assert s.threads[ids[0]].active && !s1.threads[ids[0]].active;
        forall id | id in ids ensures s.threads[id].active && !r.threads[id].active {
          if id != ids[0] {
            assert id in ids[1..];
          }
        }
      }
    }
  }

  lemma SubsetCard(a: set<nat>, b: set<nat>)
    requires a <= b
    ensures |a| <= |b|
    decreases |a|
  {
    if a != {} {
      var x :| x in a;
      SubsetCard(a - {x}, b - {x});
    }
  }

  lemma ProperSubsetCard(a: set<nat>, b: set<nat>)
    requires a <= b && a != b
    ensures |a| < |b|
  {
    var x :| x in b && x !in a;
    SubsetCard(a, b - {x});
  }

  /** Once every run is done, each pass over a non-empty slot map makes progress. */
  lemma PassProgress(s: State, n: nat, m: nat, finish: seq<nat>, pass: nat)
    requires Inv(s, n, m) && s.threads != map[] && pass >= AllDone(finish)
    ensures var r := Round(s, m, n, finish, pass);
            || r.cursor > s.cursor
            || (r.cursor == s.cursor && |r.threads.Keys| < |s.threads.Keys|)
            || (r.cursor == s.cursor && r.threads.Keys == s.threads.Keys
                && |ActiveIds(r.threads)| < |ActiveIds(s.threads)|)
  {
    var ids := SlotIds(s.threads, m);
    var r := Round(s, m, n, finish, pass);
    SweepWhenAllDone(s, ids, n, finish, pass);
    if r.cursor == s.cursor {
      if r.threads.Keys != s.threads.Keys {
        ProperSubsetCard(r.threads.Keys, s.threads.Keys);
      } else {
        var id :| id in s.threads;
        assert id in ids;
        assert ActiveIds(r.threads) == {};
        assert id in ActiveIds(s.threads);
      }
    }
  }

  /** What one pass does to the invariant, the slot map and the cursor. */
  lemma RoundFacts(s: State, n: nat, m: nat, finish: seq<nat>, pass: nat)
    requires Inv(s, n, m)
    ensures var r := Round(s, m, n, finish, pass);
            && Inv(r, n, m)
            && r.threads.Keys <= s.threads.Keys && r.cursor >= s.cursor
            && (s.threads == map[] ==> r == s)
            && (pass >= AllDone(finish) && s.threads != map[] ==>
                || r.cursor > s.cursor
                || (r.cursor == s.cursor && |r.threads.Keys| < |s.threads.Keys|)
                || (r.cursor == s.cursor && r.threads.Keys == s.threads.Keys
                    && |ActiveIds(r.threads)| < |ActiveIds(s.threads)|))
  {
    SweepKeepsInv(s, SlotIds(s.threads, m), n, m, finish, pass);
    if s.threads == map[] {
      RoundOfNone(s, m, n, finish, pass);
    }
    if pass >= AllDone(finish) && s.threads != map[] {
      PassProgress(s, n, m, finish, pass);
    }
  }

  /** When the loop stops, every task was handed out (given a slot) and reported. */
  lemma EmptyFacts(s: State, n: nat, m: nat)
    requires Inv(s, n, m) && s.threads == map[]
    ensures m > 0 ==> s.cursor == n && Starts(s.events) == Iota(n)
    ensures forall t :: 0 <= t < s.cursor ==> Reported(s.events, t)
  {
    if m > 0 {
      assert 1 !in s.threads;
    }
  }

  lemma RangeCard(ids: set<nat>, m: nat)
    requires forall id :: id in ids ==> 1 <= id <= m
    ensures |ids| <= m
    decreases m
  {
    if m == 0 {
      assert ids == {};
    } else {
      RangeCard(ids - {m}, m - 1);
    }
  }

  lemma RunsCard(t: map<nat, Slot>, ids: set<nat>)
    requires forall id :: id in ids ==> id in t && t[id].run.Some?
    ensures |set id | id in ids && id in t && t[id].run.Some? :: t[id].run.value| <= |ids|
    decreases |ids|
  {
    if ids != {} {
      var x :| x in ids;
      RunsCard(t, ids - {x});
      var all := set id | id in ids && id in t && t[id].run.Some? :: t[id].run.value;
      var rest := set id | id in ids - {x} && id in t && t[id].run.Some? :: t[id].run.value;
      assert all <= rest + {t[x].run.value};
      SubsetCard(all, rest + {t[x].run.value});
    }
  }

  /** At most m slots are active, and at most m runs are in flight. */
  lemma ConcurrencyBound(s: State, n: nat, m: nat)
    requires Inv(s, n, m)
    ensures |ActiveIds(s.threads)| <= m
    ensures |InFlight(s)| <= m
  {
    var active := ActiveIds(s.threads);
    RangeCard(active, m);
    RunsCard(s.threads, active);
    var runs := set id | id in active && id in s.threads && s.threads[id].run.Some? :: s.threads[id].run.value;
    assert InFlight(s) <= runs by {
      forall t | t in InFlight(s) ensures t in runs {
        var id :| id in s.threads && s.threads[id].active && s.threads[id].run == Some(t);
        assert id in active;
      }
    }
    SubsetCard(InFlight(s), runs);
  }

  /** A pass over slots 1 and 2 visits slot 1, then slot 2. */
  lemma RoundOfTwo(s: State, n: nat, finish: seq<nat>, pass: nat)
    requires s.threads.Keys == {1, 2}
    ensures Round(s, 2, n, finish, pass)
            == Visit(Visit(s, 1, n, finish, pass), 2, n, finish, pass)
  {
    assert SlotIds(s.threads, 0) == [];
    assert SlotIds(s.threads, 1) == [1];
    assert SlotIds(s.threads, 2) == [1, 2];
    SweepStep(s, [1, 2], n, finish, pass);
    var s1 := Visit(s, 1, n, finish, pass);
    assert [1, 2][1..] == [2];
    SweepStep(s1, [2], n, finish, pass);
    assert [2][1..] == [];
  }

  /** A pass over no slots changes nothing. */
  lemma RoundOfNone(s: State, m: nat, n: nat, finish: seq<nat>, pass: nat)
    requires s.threads == map[]
    ensures Round(s, m, n, finish, pass) == s
  {
  }

  lemma FinishesAppend(es: seq<Event>, fs: seq<Event>)
    ensures Finishes(es + fs) == Finishes(es) + Finishes(fs)
    decreases |fs|
  {
    if fs != [] {
      assert (es + fs)[..|es + fs| - 1] == es + fs[..|fs| - 1];
      assert (es + fs)[|es + fs| - 1] == fs[|fs| - 1];
      FinishesAppend(es, fs[..|fs| - 1]);
    } else {
      assert es + fs == es;
    }
  }

  lemma FinishesOne(e: Event)
    ensures Finishes([e]) == if e.Finished? then [e.task] else []
  {
    assert [e][..0] == [];
  }

  /**
   * With a single slot, the loop alternates: start task c - 1, report it, start
   * task c. The reports so far are the tasks before the slot's current run, and
   * the run itself once the slot holds it inactive.
   */
  ghost predicate OneSlotInv(s: State, n: nat)
  {
    && (s.threads == map[] ==> Finishes(s.events) == Iota(s.cursor))
    && (1 in s.threads ==>
          var slot := s.threads[1];
          && (slot.run.None? ==> s.cursor == 0 && Finishes(s.events) == [])
          && (slot.run.Some? && slot.active ==>
                slot.run.value + 1 == s.cursor && Finishes(s.events) == Iota(s.cursor - 1))
          && (slot.run.Some? && !slot.active ==>
                slot.run.value + 1 == s.cursor && s.cursor < n && Finishes(s.events) == Iota(s.cursor)))
  }

  lemma IotaNext(k: nat)
    ensures Iota(k) + [k] == Iota(k + 1)
  {
  }

  /** A visit of the only slot keeps the one-slot invariant. */
  lemma OneSlotVisit(s: State, n: nat, finish: seq<nat>, pass: nat)
    requires Inv(s, n, 1) && OneSlotInv(s, n) && 1 in s.threads
    ensures OneSlotInv(Visit(s, 1, n, finish, pass), n)
  {
    var slot := s.threads[1];
    assert s.threads.Keys == {1};
    if !slot.active && s.cursor < n {
      FinishesAppend(s.events, [Started(1, s.cursor)]);
      FinishesOne(Started(1, s.cursor));
    } else if slot.run.None? {
      FinishesAppend(s.events, [Removed(1)]);
      FinishesOne(Removed(1));
    } else if Done(finish, slot.run.value, pass) {
      var t := slot.run.value;
      assert slot.active;
      IotaNext(t);
      if s.cursor >= n {
        assert Visit(s, 1, n, finish, pass).threads == map[];
        FinishesAppend(s.events, [Finished(1, t)]);
        FinishesAppend(s.events + [Finished(1, t)], [Removed(1)]);
        FinishesOne(Finished(1, t));
        FinishesOne(Removed(1));
        assert s.events + [Finished(1, t), Removed(1)] == s.events + [Finished(1, t)] + [Removed(1)];
      } else {
        FinishesAppend(s.events, [Finished(1, t)]);
        FinishesOne(Finished(1, t));
      }
    }
  }

  /** A pass with one slot keeps the one-slot invariant. */
  lemma OneSlotRound(s: State, n: nat, finish: seq<nat>, pass: nat)
    requires Inv(s, n, 1) && OneSlotInv(s, n)
    ensures OneSlotInv(Round(s, 1, n, finish, pass), n)
  {
    assert SlotIds(s.threads, 0) == [];
    if 1 in s.threads {
      assert SlotIds(s.threads, 1) == [1];
      SweepStep(s, [1], n, finish, pass);
      assert [1][1..] == [];
      OneSlotVisit(s, n, finish, pass);
    } else {
      assert SlotIds(s.threads, 1) == [];
    }
  }

  /** With one slot, the runs are reported in the order they were started, each once. */
  lemma OneSlotEnd(s: State, n: nat)
    requires Inv(s, n, 1) && OneSlotInv(s, n) && s.threads == map[]
    ensures Finishes(s.events) == Iota(n)
  {
    EmptyFacts(s, n, 1);
  }

  /** The stale-run scenario's slot states: two slots, three tasks, runs done from passes 2, 1, 9. */
  function StaleScenario(k: nat): State
  {
    var s1 := State(map[1 := Slot(true, Some(0)), 2 := Slot(true, Some(1))], 2,
                    [Started(1, 0), Started(2, 1)]);
    var s2 := State(map[1 := Slot(true, Some(0)), 2 := Slot(false, Some(1))], 2,
                    s1.events + [Finished(2, 1)]);
    var s3 := State(map[1 := Slot(false, Some(0)), 2 := Slot(true, Some(2))], 3,
                    s2.events + [Finished(1, 0), Started(2, 2)]);
    if k == 0 then State(map[1 := Slot(false, None), 2 := Slot(false, None)], 0, [])
    else if k == 1 then s1
    else if k == 2 then s2
    else if k == 3 then s3
    else State(map[2 := Slot(true, Some(2))], 3, s3.events + [Finished(1, 0), Removed(1)])
  }

  /** Two inactive slots without runs, as the constructor makes them for maxThreads = 2. */
  lemma InitialTwo()
    ensures InitialSlots(2) == map[1 := Slot(false, None), 2 := Slot(false, None)]
  {
    var t := InitialSlots(2);
    assert t.Keys == {1, 2};
  }

  lemma StalePass0(f: seq<nat>)
    requires f == [2, 1, 9]
    ensures Round(StaleScenario(0), 2, 3, f, 0) == StaleScenario(1)
  {
    var s := StaleScenario(0);
    RoundOfTwo(s, 3, f, 0);
    assert Visit(s, 1, 3, f, 0)
           == State(map[1 := Slot(true, Some(0)), 2 := Slot(false, None)], 1, [Started(1, 0)]);
  }

  lemma StalePass1(f: seq<nat>)
    requires f == [2, 1, 9]
    ensures Round(StaleScenario(1), 2, 3, f, 1) == StaleScenario(2)
  {
    var s := StaleScenario(1);
    RoundOfTwo(s, 3, f, 1);
    assert !Done(f, 0, 1) && Done(f, 1, 1);
    assert Visit(s, 1, 3, f, 1) == s;
  }

  lemma StalePass2(f: seq<nat>)
    requires f == [2, 1, 9]
    ensures Round(StaleScenario(2), 2, 3, f, 2) == StaleScenario(3)
  {
    var s := StaleScenario(2);
    RoundOfTwo(s, 3, f, 2);
    assert Done(f, 0, 2);
    assert Visit(s, 1, 3, f, 2)
           == State(map[1 := Slot(false, Some(0)), 2 := Slot(false, Some(1))], 2,
                    s.events + [Finished(1, 0)]);
  }

  lemma StalePass3(f: seq<nat>)
    requires f == [2, 1, 9]
    ensures Round(StaleScenario(3), 2, 3, f, 3) == StaleScenario(4)
  {
    var s := StaleScenario(3);
    RoundOfTwo(s, 3, f, 3);
    assert Done(f, 0, 3) && !Done(f, 2, 3);
    assert Visit(s, 1, 3, f, 3)
           == State(map[2 := Slot(true, Some(2))], 3, s.events + [Finished(1, 0), Removed(1)]);
  }

  lemma StaleEnd()
    ensures StaleScenario(4).events == [Started(1, 0), Started(2, 1), Finished(2, 1), Finished(1, 0),
                                        Started(2, 2), Finished(1, 0), Removed(1)]
    ensures StaleScenario(4).threads == map[2 := Slot(true, Some(2))]
  {
  }

  lemma StaleRunReportedTwice(f: seq<nat>)
    requires f == [2, 1, 9]
    ensures var s4 := Round(Round(Round(Round(State(InitialSlots(2), 0, []), 2, 3, f, 0), 2, 3, f, 1), 2, 3, f, 2), 2, 3, f, 3);
            && s4.events == [Started(1, 0), Started(2, 1), Finished(2, 1), Finished(1, 0),
                             Started(2, 2), Finished(1, 0), Removed(1)]
            && s4.threads == map[2 := Slot(true, Some(2))]
  {
    InitialTwo();
    var s1 := Round(State(InitialSlots(2), 0, []), 2, 3, f, 0);
    StalePass0(f);
    assert s1 == StaleScenario(1);
    var s2 := Round(s1, 2, 3, f, 1);
    StalePass1(f);
    assert s2 == StaleScenario(2);
    var s3 := Round(s2, 2, 3, f, 2);
    StalePass2(f);
    assert s3 == StaleScenario(3);
    StalePass3(f);
    assert Round(s3, 2, 3, f, 3) == StaleScenario(4);
    StaleEnd();
  }

  class SlotDispatcher {
    /** The number of tasks the generator yields. */
    const n: nat
    const maxThreads: nat
    /** The oracle: the run of task t reports done from pass finish[t] on. */
    const finish: seq<nat>
    var threads: map<nat, Slot>
    var cursor: nat
    var events: seq<Event>
    /** Passes completed so far (the clock `done()` is read against). */
    var pass: nat

    function Snapshot(): State
      reads this
    {
      State(threads, cursor, events)
    }

    constructor(n: nat, maxThreads: nat, finish: seq<nat>)
      ensures this.n == n && this.maxThreads == maxThreads && this.finish == finish
      ensures threads == InitialSlots(maxThreads) && cursor == 0 && events == [] && pass == 0
      ensures Inv(Snapshot(), n, maxThreads)
      ensures maxThreads == 1 ==> OneSlotInv(Snapshot(), n)
    {
      this.n, this.maxThreads, this.finish := n, maxThreads, finish;
      threads := InitialSlots(maxThreads);
      cursor, events, pass := 0, [], 0;
      assert Starts([]) == Iota(0);
      assert maxThreads == 1 ==> InitialSlots(maxThreads) == map[1 := Slot(false, None)];
    }

    /** The body of the foreach for slot `id`. */
    method VisitSlot(id: nat)
      requires id in threads
      modifies this`threads, this`cursor, this`events
      ensures Snapshot() == Visit(old(Snapshot()), id, n, finish, pass)
    {
      var slot := threads[id];
      if !slot.active && cursor < n {
        threads := threads[id := Slot(true, Some(cursor))];
        events := events + [Started(id, cursor)];
        cursor := cursor + 1;
      } else if slot.run.None? {
        threads := threads - {id};
        events := events + [Removed(id)];
      } else if slot.run.value >= |finish| || finish[slot.run.value] <= pass {
        events := events + [Finished(id, slot.run.value)];
        if cursor >= n {
          threads := threads - {id};
          events := events + [Removed(id)];
        } else {
          threads := threads[id := Slot(false, slot.run)];
        }
      }
    }

    /** The foreach over the slots present when the pass starts, in key order. */
    method SweepSlots()
      modifies this`threads, this`cursor, this`events
      ensures Snapshot() == Round(old(Snapshot()), maxThreads, n, finish, pass)
    {
      var rest := SlotIds(threads, maxThreads);
      ghost var s0 := Snapshot();
      while rest != []
        invariant Sweepable(threads, rest)
        invariant Sweep(Snapshot(), rest, n, finish, pass) == Round(s0, maxThreads, n, finish, pass)
        decreases |rest|
      {
        SweepStep(Snapshot(), rest, n, finish, pass);
        VisitSlot(rest[0]);
        rest := rest[1..];
      }
    }

    /**
     * The while (true) loop of the multi-threaded doRun: passes until no slot
     * is left. It ends because every run is done from pass AllDone(finish) on.
     */
    method Run()
      requires Inv(Snapshot(), n, maxThreads)
      requires maxThreads == 1 ==> OneSlotInv(Snapshot(), n)
      modifies this`threads, this`cursor, this`events, this`pass
      ensures threads == map[]
      ensures Inv(Snapshot(), n, maxThreads)
      ensures maxThreads > 0 ==> cursor == n && Starts(events) == Iota(n)
      ensures maxThreads == 1 ==> Finishes(events) == Iota(n)
      ensures forall t :: 0 <= t < cursor ==> Reported(events, t)
      ensures old(threads) == map[] ==> events == old(events) && cursor == old(cursor)
    {
      while true
        invariant Inv(Snapshot(), n, maxThreads)
        invariant maxThreads == 1 ==> OneSlotInv(Snapshot(), n)
        invariant old(threads) == map[] ==> threads == map[] && events == old(events) && cursor == old(cursor)
        decreases (if pass < AllDone(finish) then AllDone(finish) - pass else 0),
                  n - cursor, |threads.Keys|, |ActiveIds(threads)|
      {
        ghost var before := Snapshot();
        RoundFacts(before, n, maxThreads, finish, pass);
        if maxThreads == 1 {
          OneSlotRound(before, n, finish, pass);
        }
        SweepSlots();
        pass := pass + 1;
        if threads == map[] {
          break;
        }
        assert before.threads != map[];
      }
      EmptyFacts(Snapshot(), n, maxThreads);
      if maxThreads == 1 {
        OneSlotEnd(Snapshot(), n);
      }
    }
  }
}
