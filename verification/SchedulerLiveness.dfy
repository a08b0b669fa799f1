/** No deadlock: if the groups can be ranked so that each command waits only for groups
    ranked lower than its own, then while anything is pending a step that makes progress is
    enabled, and every reachable state can be driven to one where nothing is pending. */
module SchedulerLiveness {
  import opened Groups
  import opened Scheduler
  import opened SchedulerInvariant
  import opened SchedulerSteps
  import opened SchedulerSafety
  import opened SchedulerProgress

  /** The "after" relation between groups has no cycle. */
  ghost predicate Acyclic(reg: Regs, rank: GroupId -> nat) {
    forall c, i :: c in reg && 0 <= i < |reg[c].awaits| ==> rank(reg[c].awaits[i]) < rank(reg[c].group)
  }

  /** A command is not finished, an entry is waiting, a task runs, or the main thread is
      inside a call. */
  ghost predicate Pending(s: State) {
    || (exists c :: c in s.reg && c !in s.settled)
    || Inside(s) != []
    || (exists c :: c in s.pool && s.pool[c].Active?)
    || !(s.main.Idle? || s.main.Exited?)
  }

  /** Nothing is in the middle of happening. */
  ghost predicate Still(s: State) {
    && Inv(s) && !Acting(s.worker) && (s.main.Idle? || s.main.Waiting? || s.main.Exited?)
    && forall c :: c in s.pool ==> !s.pool[c].Active?
  }

  lemma UnsettledFacts(s: State, c: Cmd)
    requires Still(s) && c in s.reg && c !in s.settled
    ensures c !in s.results && s.reg[c].group.User? && s.reg[c].group in s.table
    ensures c in s.placed ==> c in s.pool && Item.Running(c) in s.table[s.reg[c].group].items
    ensures c !in s.placed ==> Blocked(AfterOf(s.reg, c)) in Inside(s)
    ensures AllUser(s.reg[c].awaits) && Known(s.table.Keys, s.reg[c].awaits)
  {
    if c in s.placed {
      assert Item.Running(c) in RollsOf(s.table)[s.reg[c].group];
    }
  }

  lemma NotEmpty(s: State, g: GroupId) returns (c: Cmd)
    requires Inv(s) && g.User? && g in s.table && s.table[g].count != 0
    ensures c in s.reg && s.reg[c].group == g && c !in s.settled
  {
    assert Open(s.reg, s.settled, g) != {};
    c :| c in Open(s.reg, s.settled, g);
  }

  /** An unfinished command leads down to one the worker can act on. */
  lemma {:induction false} Descend(s: State, rank: GroupId -> nat, c: Cmd)
    requires Still(s) && Acyclic(s.reg, rank) && c in s.reg && c !in s.settled
    ensures Productive(s)
    decreases rank(s.reg[c].group)
  {
    UnsettledFacts(s, c);
    var g := s.reg[c].group;
    if c in s.placed {
      var i :| 0 <= i < |s.table[g].items| && s.table[g].items[i] == Item.Running(c);
      assert Ready(s.pool, s.results, s.table[g].items[i]);
    } else {
      var a := AfterOf(s.reg, c);
      if i :| 0 <= i < |a.afters| && !Nothing(s.table, a.afters[i]) {
        var d := NotEmpty(s, a.afters[i]);
        Descend(s, rank, d);
      } else {
        assert Runnable(s.table, Inside(s), a);
      }
    }
  }

  /** So does the main thread's own entry. */
  lemma EntryLeads(s: State, rank: GroupId -> nat)
    requires Still(s) && Acyclic(s.reg, rank) && Inside(s) != []
    ensures Productive(s)
  {
    var a := Inside(s)[0].after;
    EntryFacts(s, 0);
    if a.action.Todo? {
      Descend(s, rank, a.id);
    } else if i :| 0 <= i < |a.afters| && a.afters[i].User? && !Nothing(s.table, a.afters[i]) {
      var d := NotEmpty(s, a.afters[i]);
      Descend(s, rank, d);
    } else if |Inside(s)| > 1 {
      EntryFacts(s, 1);
      Descend(s, rank, Inside(s)[1].after.id);
    } else {
      assert Runnable(s.table, Inside(s), a);
    }
  }

  lemma EntryFacts(s: State, i: nat)
    requires Still(s) && i < |Inside(s)|
    ensures Inside(s)[i].Blocked? && Blocked(Inside(s)[i].after) in Inside(s)
    ensures var a := Inside(s)[i].after;
      && (a.action.Todo? ==> a.id in s.reg && a.id !in s.settled)
      && (a.action.Wake? ==> s.main == Waiting(a) && Once(a.afters) && Known(s.table.Keys, a.afters))
    ensures forall j :: 0 <= j < |Inside(s)| && j != i && Inside(s)[i].after.action.Wake? ==>
      Inside(s)[j].after.action.Todo?
  {
    assert Inside(s)[i] in Inside(s);
  }

  lemma StillPending(s: State, rank: GroupId -> nat)
    requires Still(s) && Acyclic(s.reg, rank) && Pending(s)
    ensures Productive(s)
  {
    if Inside(s) != [] {
      EntryLeads(s, rank);
    } else if c :| c in s.reg && c !in s.settled {
      Descend(s, rank, c);
    } else {
      WaiterInside(s);
    }
  }

  lemma WaiterInside(s: State)
    requires Inv(s) && s.main.Waiting?
    ensures Inside(s) != []
  {
  }

  // ----- some step that makes progress is enabled -----

  lemma {:induction false} Enumerate(groups: set<GroupId>) returns (ids: seq<GroupId>)
    ensures |ids| == |groups| && (forall g :: g in groups ==> g in ids) && Known(groups, ids)
  {
    if groups == {} {
      ids := [];
    } else {
      var g :| g in groups;
      var rest := Enumerate(groups - {g});
      ids := [g] + rest;
      forall h | h in groups ensures h in ids {
        if h != g {
          assert h in rest;
        }
      }
    }
  }

  /** The worker can always go on, unless it is waiting for the condition the main thread holds. */
  lemma WorkerEnabled(s: State) returns (e: Event)
    requires Inv(s) && !s.lock.ByMain?
    ensures (e.WorkerStart? || e.WorkerStep?) && Enabled(s, e)
  {
    if s.worker.Head? {
      var ids := Enumerate(s.table.Keys);
      assert |s.table.Keys| == |s.table|;
      e := WorkerStart(ids);
    } else {
      e := WorkerStep;
    }
  }

  lemma MainEnabled(s: State)
    requires Inv(s) && !(s.main.Idle? || s.main.Waiting? || s.main.Exited?)
    ensures Enabled(s, MainStep)
  {
  }

  lemma LockHeld(s: State)
    requires Inv(s) && (s.main.Idle? || s.main.Waiting? || s.main.Exited?)
    ensures !s.lock.ByMain?
  {
  }

  /** While anything is pending, some step is enabled that brings the end nearer: a task can
      end, the main thread can go on, or the worker is in a pass that will do some work. */
  lemma Progress(s: State, rank: GroupId -> nat) returns (e: Event)
    requires Inv(s) && Acyclic(s.reg, rank) && Pending(s)
    ensures Enabled(s, e) && !IsRequest(e) && Decreases(s, Step(s, e))
  {
    if c :| c in s.pool && s.pool[c].Active? {
      e := PoolEnd(c, true);
    } else if !(s.main.Idle? || s.main.Waiting? || s.main.Exited?) {
      MainEnabled(s);
      e := MainStep;
    } else {
      LockHeld(s);
      e := WorkerEnabled(s);
      if !Acting(s.worker) {
        StillPending(s, rank);
      }
    }
    MeasureDecreases(s, e);
  }

  lemma StepAcyclic(s: State, e: Event, rank: GroupId -> nat)
    requires Fresh(s) && Enabled(s, e) && !IsRequest(e) && Acyclic(s.reg, rank)
    ensures Acyclic(Step(s, e).reg, rank)
  {
    if e.WorkerStep? {
      WorkerEffects(s);
    }
  }

  /** States linked by enabled events, none of them a new request. */
  ghost predicate IsWindDown(states: seq<State>, events: seq<Event>) {
    && |states| == |events| + 1
    && forall i :: 0 <= i < |events| ==>
      Enabled(states[i], events[i]) && !IsRequest(events[i]) && states[i + 1] == Step(states[i], events[i])
  }

  lemma Prepend(s: State, e: Event, states: seq<State>, events: seq<Event>)
    requires IsWindDown(states, events) && Enabled(s, e) && !IsRequest(e) && states[0] == Step(s, e)
    ensures IsWindDown([s] + states, [e] + events)
  {
    forall i | 0 <= i < |[e] + events|
      ensures Enabled(([s] + states)[i], ([e] + events)[i]) && !IsRequest(([e] + events)[i])
        && ([s] + states)[i + 1] == Step(([s] + states)[i], ([e] + events)[i])
    {
      if i > 0 {
        assert ([e] + events)[i] == events[i - 1];
      }
    }
  }

  /** From every reachable state whose "after" relation is acyclic, finitely many steps, none
      of them a new request, lead to a state where nothing is pending: every command was
      collected or marked as not run, and the main thread is not left waiting. */
  lemma {:induction false} Drain(s: State, rank: GroupId -> nat) returns (states: seq<State>, events: seq<Event>)
    requires Inv(s) && Acyclic(s.reg, rank)
    ensures IsWindDown(states, events) && states[0] == s && !Pending(states[|events|])
    decreases Work(s), MainRank(s.main), RemainingOf(s)
  {
    if Pending(s) {
      var e := Progress(s, rank);
      DrainStep(s, e, rank);
      states, events := Drain(Step(s, e), rank);
      states, events := DrainFrom(s, e, states, events);
    } else {
      states, events := [s], [];
    }
  }

  lemma DrainFrom(s: State, e: Event, rest: seq<State>, more: seq<Event>)
    returns (states: seq<State>, events: seq<Event>)
    requires IsWindDown(rest, more) && !Pending(rest[|more|])
    requires Enabled(s, e) && !IsRequest(e) && rest[0] == Step(s, e)
    ensures IsWindDown(states, events) && states[0] == s && !Pending(states[|events|])
  {
    Prepend(s, e, rest, more);
    states, events := [s] + rest, [e] + more;
    assert states[|events|] == rest[|more|];
  }

  lemma DrainStep(s: State, e: Event, rank: GroupId -> nat)
    requires Inv(s) && Acyclic(s.reg, rank) && Enabled(s, e) && !IsRequest(e)
    ensures Inv(Step(s, e)) && Acyclic(Step(s, e).reg, rank)
  {
    StepInv(s, e);
    InvFresh(s);
    StepAcyclic(s, e, rank);
  }
}
