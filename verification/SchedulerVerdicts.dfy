/** What becomes of each command, each group and each wait, in every run: none is given up without
    a command that failed, and none goes on after one. */
module SchedulerVerdicts {
  import opened Groups
  import opened Scheduler
  import opened SchedulerInvariant
  import opened SchedulerSteps
  import opened SchedulerSafety
  import opened SchedulerLiveness
  import opened SchedulerEnds
  import opened SchedulerReasons

  // ----- commands that are not run -----

  /** Each command of the path was not run and waits for a group of the next one; the last one failed. */
  ghost predicate Blames(reg: Regs, results: map<Cmd, Outcome>, path: seq<Cmd>) {
    && path != []
    && (forall i :: 0 <= i < |path| ==> path[i] in reg && path[i] in results)
    && (forall i :: 0 <= i < |path| - 1 ==>
          results[path[i]].NotRun? && reg[path[i + 1]].group in reg[path[i]].awaits)
    && results[path[|path| - 1]].Failed?
  }

  lemma BlamesLater(s: State, t: State, path: seq<Cmd>)
    requires Later(s, t) && Blames(s.reg, s.results, path)
    ensures Blames(t.reg, t.results, path)
  {
    forall i | 0 <= i < |path| ensures path[i] in t.reg && path[i] in t.results {
      assert path[i] in s.reg && path[i] in s.results;
    }
  }

  lemma RecordedIsRegistered(s: State, k: Marks, c: Cmd)
    requires Core(s, k) && c in s.results
    ensures c in s.reg
  {
  }

  ghost predicate Blamed(s: State, c: Cmd) {
    exists path :: Blames(s.reg, s.results, path) && path[0] == c
  }

  ghost predicate AllBlamed(s: State) {
    forall c :: Bad(s.results, c) ==> Blamed(s, c)
  }

  /** One command more that did not succeed. */
  lemma NextBlamed(states: seq<State>, events: seq<Event>, i: nat, c: Cmd)
    requires IsRun(states, events) && i < |events| && AllBlamed(states[i]) && Bad(states[i + 1].results, c)
    ensures Blamed(states[i + 1], c)
  {
    if states[i + 1].results[c].Failed? {
      var path := FailedItself(states, events, i + 1, c);
    } else {
      var d := c;
      if !Bad(states[i].results, c) {
        d := JustSkipped(states, events, i, c);
      }
      var path :| Blames(states[i].reg, states[i].results, path) && path[0] == d;
      if d == c {
        StillBlames(states, events, i, path);
      } else {
        var longer := SkippedFor(states, events, i, c, path);
      }
    }
  }

  lemma {:induction false} RunBlamed(states: seq<State>, events: seq<Event>, i: nat)
    requires IsRun(states, events) && i < |states|
    ensures AllBlamed(states[i])
  {
    if i > 0 {
      RunBlamed(states, events, i - 1);
      forall c | Bad(states[i].results, c) ensures Blamed(states[i], c) {
        NextBlamed(states, events, i - 1, c);
      }
    } else {
      NothingAtFirst(states, events);
    }
  }

  lemma NothingAtFirst(states: seq<State>, events: seq<Event>)
    requires IsRun(states, events)
    ensures states[0].results == map[]
  {
  }

  /** In every state of every run, a command that did not succeed failed itself, or was not run
      because something that it waits for, directly or through others, failed. */
  lemma RootCause(states: seq<State>, events: seq<Event>, i: nat, c: Cmd) returns (path: seq<Cmd>)
    requires IsRun(states, events) && i < |states| && Bad(states[i].results, c)
    ensures Blames(states[i].reg, states[i].results, path) && path[0] == c
  {
    RunBlamed(states, events, i);
    assert Blamed(states[i], c);
    path :| Blames(states[i].reg, states[i].results, path) && path[0] == c;
  }

  lemma StillBlames(states: seq<State>, events: seq<Event>, i: nat, path: seq<Cmd>)
    requires IsRun(states, events) && i < |events| && Blames(states[i].reg, states[i].results, path)
    ensures Blames(states[i + 1].reg, states[i + 1].results, path)
  {
    RunHistory(states, events, i, i + 1);
    BlamesLater(states[i], states[i + 1], path);
  }

  lemma FailedItself(states: seq<State>, events: seq<Event>, i: nat, c: Cmd) returns (path: seq<Cmd>)
    requires IsRun(states, events) && i < |states| && c in states[i].results && states[i].results[c].Failed?
    ensures Blames(states[i].reg, states[i].results, path) && path[0] == c
  {
    RunKeepsInv(states, events, i);
    RecordedIsRegistered(states[i], MarksOf(states[i].worker), c);
    path := [c];
  }

  lemma SkippedFor(states: seq<State>, events: seq<Event>, i: nat, c: Cmd, rest: seq<Cmd>) returns (path: seq<Cmd>)
    requires IsRun(states, events) && i < |events| && Blames(states[i].reg, states[i].results, rest)
    requires c in states[i].reg && states[i].reg[rest[0]].group in states[i].reg[c].awaits
    requires c in states[i + 1].results && states[i + 1].results[c].NotRun?
    ensures Blames(states[i + 1].reg, states[i + 1].results, path) && path[0] == c
  {
    StillBlames(states, events, i, rest);
    RunHistory(states, events, i, i + 1);
    Longer(states[i + 1].reg, states[i + 1].results, c, rest);
    path := [c] + rest;
  }

  lemma Longer(reg: Regs, results: map<Cmd, Outcome>, c: Cmd, rest: seq<Cmd>)
    requires Blames(reg, results, rest) && c in reg && c in results && results[c].NotRun?
    requires reg[rest[0]].group in reg[c].awaits
    ensures Blames(reg, results, [c] + rest)
  {
    var path := [c] + rest;
    forall i | 0 <= i < |path| ensures path[i] in reg && path[i] in results {
      assert i > 0 ==> path[i] == rest[i - 1];
    }
    forall i | 0 <= i < |path| - 1 ensures results[path[i]].NotRun? && reg[path[i + 1]].group in reg[path[i]].awaits {
      assert path[i + 1] == rest[i] && (i > 0 ==> path[i] == rest[i - 1]);
    }
    assert path[|path| - 1] == rest[|rest| - 1];
  }

  lemma OnlyWorkerRecords(s: State, e: Event, c: Cmd)
    requires Enabled(s, e) && c in Step(s, e).results && c !in s.results
    ensures e.WorkerStep?
  {
    if e.MainStep? {
      MainTable(s);
    } else if !e.WorkerStep? {
      OtherTable(s, e);
    }
  }

  lemma JustSkipped(states: seq<State>, events: seq<Event>, i: nat, c: Cmd) returns (d: Cmd)
    requires IsRun(states, events) && i < |events| && !Bad(states[i].results, c)
    requires c in states[i + 1].results && states[i + 1].results[c].NotRun?
    ensures Bad(states[i].results, d) && d in states[i].reg
    ensures c in states[i].reg && states[i].reg[d].group in states[i].reg[c].awaits
  {
    var s := states[i];
    RunKeepsInv(states, events, i);
    RunFounded(states, events, i);
    RunHistory(states, events, i, i + 1);
    OnlyWorkerRecords(s, events[i], c);
    NewSkips(s, c);
    AtMark(s);
    EntryAwaits(s, MarksOf(s.worker), s.worker.a);
    d :| Bad(s.results, d) && d in s.reg && s.reg[d].group in s.worker.a.afters;
  }

  lemma AtMark(s: State)
    requires WorkerOk(s) && s.worker.SkipMarking?
    ensures Blocked(s.worker.a) in Inside(s) && s.worker.a.action.Todo?
  {
  }

  /** So in every state of every run, a command that was not run waits for one that did not succeed. */
  lemma NotRunFounded(states: seq<State>, events: seq<Event>, i: nat, c: Cmd)
    requires IsRun(states, events) && i < |states| && c in states[i].results && states[i].results[c].NotRun?
    ensures c in states[i].reg
    ensures var s := states[i];
      exists d :: d in s.results && !s.results[d].Saved? && d in s.reg && s.reg[d].group in s.reg[c].awaits
  {
    var s := states[i];
    RunFounded(states, events, i);
    var d :| Bad(s.results, d) && d in s.reg && s.reg[d].group in s.reg[c].awaits;
    assert d in s.results && !s.results[d].Saved?;
  }

  /** Once nothing is pending, every registered command was handed to the pool or not run; one that
      waits for groups without failures was handed to it, and one that waits for a failure was not. */
  lemma RanExact(states: seq<State>, events: seq<Event>, i: nat, c: Cmd)
    requires IsRun(states, events) && i < |states| && !Pending(states[i]) && c in states[i].reg
    ensures var s := states[i];
      && (c in s.pool <==> !(c in s.results && s.results[c].NotRun?))
      && ((forall d :: d in s.reg && s.reg[d].group in s.reg[c].awaits ==> d in s.results && s.results[d].Saved?) ==>
            c in s.pool)
      && ((exists d :: d in s.reg[c].need && d in s.results && !s.results[d].Saved?) ==> c !in s.pool)
  {
    RunKeepsInv(states, events, i);
    RanCore(states[i], MarksOf(states[i].worker), c);
    if c in states[i].results && states[i].results[c].NotRun? {
      NotRunFounded(states, events, i, c);
    }
  }

  lemma RanCore(s: State, k: Marks, c: Cmd)
    requires Core(s, k) && !Pending(s) && c in s.reg
    ensures c in s.pool <==> !(c in s.results && s.results[c].NotRun?)
    ensures (exists d :: d in s.reg[c].need && d in s.results && !s.results[d].Saved?) ==> c !in s.pool
  {
    assert c in s.settled && c in s.results;
  }

  // ----- what is recorded of a task -----

  /** The task of the command ended within the first `n` events, well or not. */
  predicate Ended(events: seq<Event>, n: nat, c: Cmd, ok: bool)
    requires n <= |events|
  {
    exists k :: 0 <= k < n && events[k] == PoolEnd(c, ok)
  }

  lemma EndedNext(events: seq<Event>, n: nat, c: Cmd, ok: bool)
    requires n < |events|
    ensures Ended(events, n + 1, c, ok) <==> Ended(events, n, c, ok) || events[n] == PoolEnd(c, ok)
  {
  }

  /** One step of the pool. */
  lemma TaskStep(s: State, e: Event, c: Cmd)
    requires Enabled(s, e) && s.next !in s.pool && (s.worker.Starting? ==> s.worker.a.id !in s.pool)
    ensures var pool := PoolAfter(s, e);
      && (c in pool && pool[c].Succeeded? <==> (c in s.pool && s.pool[c].Succeeded?) || e == PoolEnd(c, true))
      && (c in pool && pool[c].Errored? <==> (c in s.pool && s.pool[c].Errored?) || e == PoolEnd(c, false))
  {
  }

  ghost predicate TaskMoves(states: seq<State>, events: seq<Event>, n: nat, c: Cmd)
    requires n < |events| < |states|
  {
    var pool, next := states[n].pool, states[n + 1].pool;
    && (c in next && next[c].Succeeded? <==> (c in pool && pool[c].Succeeded?) || events[n] == PoolEnd(c, true))
    && (c in next && next[c].Errored? <==> (c in pool && pool[c].Errored?) || events[n] == PoolEnd(c, false))
  }

  lemma StepMovesTask(states: seq<State>, events: seq<Event>, n: nat, c: Cmd)
    requires IsRun(states, events) && n < |events|
    ensures TaskMoves(states, events, n, c)
  {
    RunKeepsInv(states, events, n);
    NewInPool(states[n]);
    StepPool(states[n], events[n]);
    TaskStep(states[n], events[n], c);
  }

  lemma {:induction false} TaskAt(states: seq<State>, events: seq<Event>, n: nat, c: Cmd)
    requires |states| == |events| + 1 && c !in states[0].pool && n <= |events|
    requires forall k :: 0 <= k < |events| ==> TaskMoves(states, events, k, c)
    ensures c in states[n].pool && states[n].pool[c].Succeeded? <==> Ended(events, n, c, true)
    ensures c in states[n].pool && states[n].pool[c].Errored? <==> Ended(events, n, c, false)
  {
    if n > 0 {
      TaskAt(states, events, n - 1, c);
      EndedNext(events, n - 1, c, true);
      EndedNext(events, n - 1, c, false);
      assert TaskMoves(states, events, n - 1, c);
    }
  }

  lemma TaskExact(states: seq<State>, events: seq<Event>, n: nat, c: Cmd)
    requires IsRun(states, events) && n <= |events|
    ensures c in states[n].pool && states[n].pool[c].Succeeded? <==> Ended(events, n, c, true)
    ensures c in states[n].pool && states[n].pool[c].Errored? <==> Ended(events, n, c, false)
  {
    forall k | 0 <= k < |events| ensures TaskMoves(states, events, k, c) {
      StepMovesTask(states, events, k, c);
    }
    TaskAt(states, events, n, c);
  }

  /** In every state of every run: a command is recorded as saved only when its task ended well, as
      failed only when it ended badly, and as not run only when it was never at work. */
  lemma OutcomeExact(states: seq<State>, events: seq<Event>, n: nat, c: Cmd)
    requires IsRun(states, events) && n <= |events| && c in states[n].results
    ensures var o := states[n].results[c];
      && (o.Saved? <==> Ended(events, n, c, true)) && (o.Failed? <==> Ended(events, n, c, false))
      && (o.Saved? ==> c in states[n].depsSaved) && (o.NotRun? ==> c !in states[n].pool)
  {
    RunKeepsInv(states, events, n);
    TaskExact(states, events, n, c);
    OutcomeCore(states[n], MarksOf(states[n].worker), c);
  }

  lemma OutcomeCore(s: State, k: Marks, c: Cmd)
    requires Core(s, k) && c in s.results
    ensures ResultOk(s.results[c], c, s.depsSaved, s.pool)
  {
  }

  /** While no task ends badly, all that is recorded is saved. */
  lemma NoFailure(states: seq<State>, events: seq<Event>, i: nat)
    requires IsRun(states, events) && i < |states|
    requires forall k :: 0 <= k < i && events[k].PoolEnd? ==> events[k].ok
    ensures forall c :: c in states[i].results ==> states[i].results[c].Saved?
  {
    forall c | c in states[i].results ensures states[i].results[c].Saved? {
      if !states[i].results[c].Saved? {
        var path := RootCause(states, events, i, c);
        OutcomeExact(states, events, i, path[|path| - 1]);
      }
    }
  }

  // ----- the end of a wait -----

  lemma WaitedSaved(s: State, k: Marks)
    requires Core(s, k) && s.main.Notified? && s.done
    ensures AllSaved(s.results, s.waitFor)
  {
  }

  /** A wait ends the build exactly when some command of the awaited groups did not succeed. */
  lemma WaitExact(states: seq<State>, events: seq<Event>, i: nat)
    requires IsRun(states, events) && i < |events| && events[i] == MainStep && states[i].main.Notified?
    ensures var s := states[i];
      states[i + 1].main ==
        if exists d :: d in s.results && !s.results[d].Saved? && d in s.reg && s.reg[d].group in s.main.entry.afters
        then Exited else Idle
  {
    var s := states[i];
    RunKeepsInv(states, events, i);
    RunFounded(states, events, i);
    if s.done {
      WaitedSaved(s, MarksOf(s.worker));
    } else {
      var d :| Bad(s.results, d) && d in s.reg && s.reg[d].group in s.main.entry.afters;
      assert d in s.results && !s.results[d].Saved?;
    }
  }

  // ----- the groups -----

  /** Some command of the group is recorded as not having succeeded. */
  ghost predicate FailedOne(s: State, g: GroupId) {
    exists d :: d in s.results && !s.results[d].Saved? && d in s.reg && s.reg[d].group == g
  }

  /** A flag is down only for a command of the group, and it is down once the worker has got to it. */
  lemma FlagExact(states: seq<State>, events: seq<Event>, i: nat, g: GroupId)
    requires IsRun(states, events) && i < |states| && g in states[i].table
    ensures !states[i].table[g].ok ==> FailedOne(states[i], g)
    ensures FailedOne(states[i], g) && states[i].table[g].ok ==> states[i].worker.Failing? && states[i].worker.id == g
  {
    RunKeepsInv(states, events, i);
    RunFounded(states, events, i);
    if !states[i].table[g].ok {
      FlaggedOne(states[i], g);
    } else if FailedOne(states[i], g) {
      UnflaggedOne(states[i], g);
    }
  }

  lemma FlaggedOne(s: State, g: GroupId)
    requires Founded(s) && g in s.table && !s.table[g].ok
    ensures FailedOne(s, g)
  {
    var d :| Bad(s.results, d) && d in s.reg && s.reg[d].group in [g];
    assert d in s.results && !s.results[d].Saved? && s.reg[d].group == g;
  }

  lemma UnflaggedOne(s: State, g: GroupId)
    requires Inv(s) && FailedOne(s, g) && g in s.table && s.table[g].ok
    ensures s.worker.Failing? && s.worker.id == g
  {
    var d :| d in s.results && !s.results[d].Saved? && d in s.reg && s.reg[d].group == g;
    FlagDue(s, MarksOf(s.worker), d);
    AtFailing(s);
  }

  lemma FlagDue(s: State, k: Marks, d: Cmd)
    requires Core(s, k) && Bad(s.results, d) && d in s.reg && s.reg[d].group in s.table && s.table[s.reg[d].group].ok
    ensures k.unflagged.Some? && k.unflagged.value == d
  {
  }

  lemma AtFailing(s: State)
    requires WorkerOk(s) && s.worker.Failing?
    ensures s.worker.cmd in s.reg && s.reg[s.worker.cmd].group == s.worker.id
  {
  }

  predicate Asks(e: Event, g: GroupId) {
    e == SkipRun(g) || e == Run(g) || (e.RunAfter? && e.group == g)
  }

  predicate Asked(events: seq<Event>, n: nat, g: GroupId)
    requires n <= |events|
  {
    exists k :: 0 <= k < n && Asks(events[k], g)
  }

  /** The group is known, or is about to be. */
  predicate Named(s: State, g: GroupId) {
    g in s.table || (s.main.Launching? && s.main.group == g)
  }

  lemma StepGroups(s: State, e: Event, g: GroupId)
    requires Enabled(s, e) && g.User? && !e.WorkerStep?
    ensures Named(Step(s, e), g) <==> Named(s, g) || Asks(e, g)
  {
    if e.MainStep? {
      MainGroups(s, g);
    }
  }

  lemma MainGroups(s: State, g: GroupId)
    requires Enabled(s, MainStep) && g.User?
    ensures Named(StepMain(s), g) <==> Named(s, g)
  {
    if s.main.Launching? {
      AddKeys(s.table, s.main.group, Item.Running(s.main.cmd));
    } else if s.main.Blocking? {
      AddKeys(s.table, Internal, Blocked(s.main.after));
    } else if s.main.Acquired? {
      AddKeys(s.table, Internal, Blocked(After(s.next, s.main.args, Wake)));
    }
  }

  lemma AddKeys(t: Table, id: GroupId, item: Item)
    ensures Add(t, id, item).Keys == t.Keys + {id}
  {
  }

  lemma WorkerGroups(s: State, g: GroupId)
    requires Inv(s) && Enabled(s, WorkerStep)
    ensures Named(StepWorker(s), g) <==> Named(s, g)
  {
    WorkerFlags(s);
    NewVerdict(s);
  }

  lemma AskedNext(events: seq<Event>, n: nat, g: GroupId)
    requires n < |events|
    ensures Asked(events, n + 1, g) <==> Asked(events, n, g) || Asks(events[n], g)
  {
  }

  /** A group can be waited for once it was named for some command, skipped or not; while a command
      is being handed to the pool its group may still be missing. */
  lemma {:induction false} GroupsExact(states: seq<State>, events: seq<Event>, n: nat, g: GroupId)
    requires IsRun(states, events) && n <= |events| && g.User?
    ensures g in states[n].table || (states[n].main.Launching? && states[n].main.group == g) <==> Asked(events, n, g)
  {
    if n > 0 {
      GroupsExact(states, events, n - 1, g);
      AskedNext(events, n - 1, g);
      RunKeepsInv(states, events, n - 1);
      if events[n - 1].WorkerStep? {
        WorkerGroups(states[n - 1], g);
      } else {
        StepGroups(states[n - 1], events[n - 1], g);
      }
    }
  }

  /** Which events may come: the main thread asks for what it likes while it is idle, and a task at
      work may end either way. */
  lemma Accepted(s: State, g: GroupId, ids: seq<GroupId>, c: Cmd)
    ensures s.main.Idle? && g.User? ==> Enabled(s, SkipRun(g)) && Enabled(s, Run(g))
    ensures s.main.Idle? && g.User? && (forall i :: 0 <= i < |ids| ==> ids[i].User? && ids[i] in s.table) ==>
      Enabled(s, RunAfter(g, ids)) && Enabled(s, Await(ids)) &&
      Enabled(s, Await(ids + [Internal])) == (Internal in s.table)
    ensures c in s.pool && s.pool[c].Active? ==> Enabled(s, PoolEnd(c, true)) && Enabled(s, PoolEnd(c, false))
  {
    var all := ids + [Internal];
    assert forall i :: 0 <= i < |all| ==> all[i] == if i < |ids| then ids[i] else Internal;
    assert all[|ids|] == Internal;
  }
}
