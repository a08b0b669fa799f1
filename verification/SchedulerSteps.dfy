/** Every event keeps the invariant, so it holds in every state of every run. */
module SchedulerSteps {
  import opened Attempts
  import opened Groups
  import opened Scheduler
  import opened SchedulerInvariant
  import opened SchedulerWorker
  import opened SchedulerMain

  /** The worker moves on: what holds of the shared state and of its next position. */
  lemma Land(s: State, w: WorkerPc)
    requires Core(s, MarksOf(w))
    requires PcOk(w, s.table.Keys, Inside(s), s.reg, s.placed, s.settled, s.results, s.pool.Keys, s.waitFor, s.main)
    ensures Inv(s.(worker := w))
  {
  }

  // ----- the first half of a pass -----

  lemma VisitInv(s: State, ids: seq<GroupId>)
    requires Inv(s) && s.worker == Visit(ids)
    ensures Inv(s.(worker := NextRead(s.table, s.worker)))
  {
    if ids != [] && ids[0].User? {
      assert ids[0] in s.table;
      assert RollsOf(s.table)[ids[0]] == s.table[ids[0]].items;
    }
    Land(s, NextRead(s.table, s.worker));
  }

  lemma PassInv(s: State, id: GroupId, rest: seq<Item>, ids: seq<GroupId>)
    requires Core(s, NO_MARKS) && CollectOk(s.table.Keys, s.reg, s.placed, id, rest, ids)
    ensures Inv(s.(worker := Poll(id, rest, ids))) && Inv(s.(worker := Visit(ids)))
  {
    Land(s, Poll(id, rest, ids));
    Land(s, Visit(ids));
  }

  lemma CollectInv(s: State, id: GroupId, c: Cmd, rest: seq<Item>, ids: seq<GroupId>)
    requires Core(s, NO_MARKS) && CollectOk(s.table.Keys, s.reg, s.placed, id, rest, ids)
    requires c in s.placed && c in s.reg && s.reg[c].group == id && c !in s.results && c in s.pool && !s.pool[c].Active?
    ensures Inv(StepCollect(s, id, c, rest, ids))
  {
    assert c !in s.settled;
    Collect(s, c);
    if s.pool[c].Succeeded? {
      LandCollected(s.(results := s.results[c := Saved], depsSaved := s.depsSaved + {c}), id, c, rest, ids);
    } else {
      LandFailed(s.(results := s.results[c := Failed]), id, c, rest, ids);
    }
  }

  lemma PollFacts(s: State, id: GroupId, items: seq<Item>, ids: seq<GroupId>)
    requires Inv(s) && s.worker == Poll(id, items, ids) && items != []
    ensures items[0].Running? && items[0].cmd in s.placed && items[0].cmd in s.reg && s.reg[items[0].cmd].group == id
    ensures items[0].cmd in s.results || items[0].cmd in s.pool
    ensures CollectOk(s.table.Keys, s.reg, s.placed, id, items[1..], ids)
  {
  }

  lemma PollInv(s: State, id: GroupId, items: seq<Item>, ids: seq<GroupId>)
    requires Inv(s) && s.worker == Poll(id, items, ids)
    ensures Inv(StepPoll(s, id, items, ids))
  {
    if items == [] {
      PassInv(s, id, [], ids);
    } else {
      PollFacts(s, id, items, ids);
      var c, rest := items[0].cmd, items[1..];
      if c in s.results || s.pool[c].Active? {
        PassInv(s, id, rest, ids);
      } else {
        CollectInv(s, id, c, rest, ids);
      }
    }
  }

  lemma LandCollected(s: State, id: GroupId, c: Cmd, items: seq<Item>, ids: seq<GroupId>)
    requires Core(s, NO_MARKS.(inFlight := Some(c))) && CollectOk(s.table.Keys, s.reg, s.placed, id, items, ids)
    requires Unsettled(s.reg, s.settled, s.results, id, c)
    ensures Inv(s.(worker := Counting(id, c, items, ids)))
  {
    Land(s, Counting(id, c, items, ids));
  }

  lemma LandFailed(s: State, id: GroupId, c: Cmd, items: seq<Item>, ids: seq<GroupId>)
    requires Core(s, NO_MARKS.(inFlight := Some(c), unflagged := Some(c))) &&
      CollectOk(s.table.Keys, s.reg, s.placed, id, items, ids)
    requires Unsettled(s.reg, s.settled, s.results, id, c) && s.results[c].Failed?
    ensures Inv(s.(worker := Failing(id, c, items, ids)))
  {
    Land(s, Failing(id, c, items, ids));
  }

  lemma FailingInv(s: State, id: GroupId, c: Cmd, items: seq<Item>, ids: seq<GroupId>)
    requires Inv(s) && s.worker == Failing(id, c, items, ids)
    ensures id in s.table && Inv(s.(table := s.table[id := s.table[id].(ok := false)],
                                    worker := Counting(id, c, items, ids)))
  {
    Flag(s, id, MarksOf(s.worker));
    LandCollected(s.(table := s.table[id := s.table[id].(ok := false)]), id, c, items, ids);
  }

  lemma CountingInv(s: State, id: GroupId, c: Cmd, items: seq<Item>, ids: seq<GroupId>)
    requires Inv(s) && s.worker == Counting(id, c, items, ids)
    ensures id in s.table && s.table[id].count > 0 && Inv(Uncounted(s, id, c).(worker := Poll(id, items, ids)))
  {
    Uncount(s, MarksOf(s.worker), id, c);
    Land(Uncounted(s, id, c), Poll(id, items, ids));
  }

  // ----- the second half: reading counts and flags -----

  lemma AftersHeadInv(s: State)
    requires Inv(s) && s.worker.AftersHead?
    ensures Inv(s.(worker := NextRead(s.table, s.worker)))
  {
    Land(s, NextRead(s.table, s.worker));
  }

  /** The groups an entry waits for exist, and its needs are in them. */
  lemma EntryKnown(s: State, a: After)
    requires Core(s, NO_MARKS) && Blocked(a) in Inside(s)
    ensures Known(s.table.Keys, a.afters)
    ensures NeedsIn(s.reg, NeedOf(s.reg, s.waitFor, a), a.afters)
    ensures a.action.Wake? ==> Awaited(s.main) == Some(a)
  {
    var i :| 0 <= i < |Inside(s)| && Inside(s)[i] == Blocked(a);
  }

  ghost predicate NeedsIn(reg: Regs, cmds: set<Cmd>, ids: seq<GroupId>) {
    forall c :: c in cmds ==> c in reg && reg[c].group in ids && reg[c].group.User?
  }

  lemma ScanInv(s: State, todo: seq<Item>)
    requires Inv(s) && s.worker == Scan(todo)
    ensures Inv(s.(worker := NextRead(s.table, s.worker)))
  {
    if todo == [] {
      Land(s, Head);
    } else {
      var a := todo[0].after;
      EntryKnown(s, a);
      assert Passed(a.afters, a.afters) == [];
      Land(s, Sum(a, a.afters, 0, todo[1..]));
    }
  }

  /** A group read as having nothing left holds only uncounted commands, and keeps doing so. */
  lemma ReadCount(t: Table, reg: Regs, placed: set<Cmd>, settled: set<Cmd>, g: GroupId)
    requires Counts(t, reg, placed, settled, 0) && g in t
    ensures g.User? ==>
      GetCount(t, g) >= 0 && (GetCount(t, g) == 0 ==> forall c :: c in reg && reg[c].group == g ==> c in settled)
    ensures g.Internal? ==> GetCount(t, g) == |t[Internal].items|
  {
    if g.User? && GetCount(t, g) == 0 {
      assert Open(reg, settled, g) == {};
      forall c | c in reg && reg[c].group == g ensures c in settled {
        assert c !in Open(reg, settled, g);
      }
    }
  }

  lemma PassOne(left: seq<GroupId>, all: seq<GroupId>)
    requires left != [] && Suffix(left, all)
    ensures Suffix(left[1..], all) && Passed(left[1..], all) == Passed(left, all) + [left[0]] && left[0] in all
  {
    assert left[0] == all[|all| - |left|];
  }

  ghost predicate SumOk(inside: seq<Item>, groups: set<GroupId>, reg: Regs, settled: set<Cmd>, need: set<Cmd>,
                        a: After, left: seq<GroupId>, sum: int, todo: seq<Item>) {
    && CurrentOk(inside, groups, a, todo) && Suffix(left, a.afters) && sum >= Base(Passed(left, a.afters))
    && (sum == Base(Passed(left, a.afters)) ==> SettledIn(reg, settled, need, Passed(left, a.afters)))
  }

  /** One group more in the sum. */
  lemma SumMore(t: Table, reg: Regs, placed: set<Cmd>, settled: set<Cmd>, next: nat, need: set<Cmd>, a: After,
                left: seq<GroupId>, sum: int, todo: seq<Item>)
    requires Counts(t, reg, placed, settled, 0) && RegsOk(t.Keys, reg, next) && left != []
    requires SumOk(t[Internal].items, t.Keys, reg, settled, need, a, left, sum, todo)
    ensures SumOk(t[Internal].items, t.Keys, reg, settled, need, a, left[1..], sum + GetCount(t, left[0]), todo)
  {
    var g, passed := left[0], Passed(left, a.afters);
    PassOne(left, a.afters);
    assert g in t;
    ReadCount(t, reg, placed, settled, g);
    assert Base(passed + [g]) == if g.Internal? then 1 else Base(passed);
    if sum + GetCount(t, g) == Base(passed + [g]) {
      forall c | c in need && c in reg && reg[c].group in passed + [g] ensures c in settled {
        assert reg[c].group in passed || reg[c].group == g;
      }
    }
  }

  lemma SumInv(s: State, a: After, left: seq<GroupId>, sum: int, todo: seq<Item>)
    requires Inv(s) && s.worker == Sum(a, left, sum, todo)
    ensures Inv(s.(worker := NextRead(s.table, s.worker)))
  {
    if left != [] {
      SumMore(s.table, s.reg, s.placed, s.settled, s.next, NeedOf(s.reg, s.waitFor, a), a, left, sum, todo);
      Land(s, Sum(a, left[1..], sum + GetCount(s.table, left[0]), todo));
    } else {
      assert Passed(left, a.afters) == a.afters;
      assert Passed(a.afters, a.afters) == [];
      Land(s, Oks(a, a.afters, sum, todo));
    }
  }

  /** A group read as free of errors holds no settled command that did not succeed. */
  lemma ReadOk(t: Table, reg: Regs, settled: set<Cmd>, results: map<Cmd, Outcome>, cmds: set<Cmd>, ids: seq<GroupId>,
               g: GroupId)
    requires Flags(t, reg, results, None) && SettledOk(settled, results, None) && g in t && t[g].ok
    requires SettledIn(reg, settled, cmds, ids) && g in ids
    ensures SavedIn(reg, results, cmds, [g])
  {
  }

  lemma DecideOk(s: State, a: After, sum: int, noError: bool, todo: seq<Item>)
    requires CurrentOk(Inside(s), s.table.Keys, a, todo) && sum >= Base(a.afters)
    requires sum == Base(a.afters) && noError ==> AllSaved(s.results, NeedOf(s.reg, s.waitFor, a))
    ensures var w := Decide(a, sum, noError, todo);
      MarksOf(w) == NO_MARKS && PcOk(w, s.table.Keys, Inside(s), s.reg, s.placed, s.settled, s.results, s.pool.Keys,
                                     s.waitFor, s.main)
  {
  }

  lemma OksInv(s: State, a: After, left: seq<GroupId>, sum: int, todo: seq<Item>)
    requires Inv(s) && s.worker == Oks(a, left, sum, todo)
    ensures Inv(s.(worker := NextRead(s.table, s.worker)))
  {
    EntryKnown(s, a);
    if left == [] {
      assert Passed(left, a.afters) == a.afters;
      DecideOk(s, a, sum, true, todo);
      Land(s, Decide(a, sum, true, todo));
    } else {
      PassOne(left, a.afters);
      if s.table[left[0]].ok {
        if sum == Base(a.afters) {
          ReadOk(s.table, s.reg, s.settled, s.results, NeedOf(s.reg, s.waitFor, a), a.afters, left[0]);
        }
        Land(s, Oks(a, left[1..], sum, todo));
      } else {
        DecideOk(s, a, sum, false, todo);
        Land(s, Decide(a, sum, false, todo));
      }
    }
  }

  // ----- dispatching, skipping, waking -----

  lemma StartingInv(s: State, a: After, todo: seq<Item>)
    requires Inv(s) && s.worker == Starting(a, todo)
    ensures Inv(s.(pool := s.pool[a.id := Active], worker := Dispatching(a, todo)))
  {
    Start(s, a);
    Land(s.(pool := s.pool[a.id := Active]), Dispatching(a, todo));
  }

  /** A blocked command's entry names a command not yet in its group. */
  lemma EntryPlace(s: State, a: After)
    requires Core(s, MarksOf(s.worker)) && MarksOf(s.worker).leaver.None? && Blocked(a) in Inside(s) && a.action.Todo?
    ensures a.id in s.reg && a.id !in s.placed && a == AfterOf(s.reg, a.id) && a.id !in s.results
    ensures MarksOf(s.worker) == NO_MARKS ==> a.id !in s.pool
  {
    var i :| 0 <= i < |Inside(s)| && Inside(s)[i] == Blocked(a);
  }

  lemma KnownGroup(s: State, c: Cmd, g: GroupId)
    requires Core(s, MarksOf(s.worker)) && c in s.reg && s.reg[c].group == g
    ensures g.User? && g in s.table && Internal in s.table
  {
  }

  /** The worker's position after placing the command of its current entry. */
  lemma SamePlace(s: State, g: GroupId, a: After, todo: seq<Item>)
    requires g in s.table && g.User? && Internal in s.table && CurrentOk(Inside(s), s.table.Keys, a, todo) &&
      a.action == Todo(g)
    ensures var t := PlacedState(s, g, a.id);
      && PcOk(Removing(a, todo), t.table.Keys, Inside(t), t.reg, t.placed, t.settled, t.results, t.pool.Keys, t.waitFor,
              t.main)
      && (a.id !in s.pool && a.id !in s.results ==>
           PcOk(SkipMarking(a, todo), t.table.Keys, Inside(t), t.reg, t.placed, t.settled, t.results, t.pool.Keys,
                t.waitFor, t.main))
  {
    assert PlacedState(s, g, a.id).table.Keys == s.table.Keys;
    assert Inside(PlacedState(s, g, a.id)) == Inside(s);
  }

  lemma DispatchingInv(s: State, a: After, g: GroupId, todo: seq<Item>)
    requires Inv(s) && s.worker == Dispatching(a, todo) && a.action == Todo(g)
    ensures g in s.table && s.table[g].countInFalse > 0 && Inv(PlacedState(s, g, a.id).(worker := Removing(a, todo)))
  {
    EntryPlace(s, a);
    KnownGroup(s, a.id, g);
    SamePlace(s, g, a, todo);
    PlaceDispatched(s, a, g);
    Land(PlacedState(s, g, a.id), Removing(a, todo));
  }

  lemma SkippingInv(s: State, a: After, g: GroupId, todo: seq<Item>)
    requires Inv(s) && s.worker == Skipping(a, todo) && a.action == Todo(g)
    ensures g in s.table && s.table[g].countInFalse > 0 && Inv(PlacedState(s, g, a.id).(worker := SkipMarking(a, todo)))
  {
    EntryPlace(s, a);
    KnownGroup(s, a.id, g);
    SamePlace(s, g, a, todo);
    PlaceSkipped(s, a, g);
    Land(PlacedState(s, g, a.id), SkipMarking(a, todo));
  }

  /** A leaving entry names a command already in its group. */
  lemma EntryLeft(s: State, a: After, g: GroupId)
    requires Core(s, MarksOf(s.worker)) && Blocked(a) in Inside(s) && a.action == Todo(g)
    ensures a.id in s.reg && s.reg[a.id].group == g && g in s.table && g.User?
  {
    var i :| 0 <= i < |Inside(s)| && Inside(s)[i] == Blocked(a);
  }

  lemma SkipMarkingInv(s: State, a: After, g: GroupId, todo: seq<Item>)
    requires Inv(s) && s.worker == SkipMarking(a, todo) && a.action == Todo(g)
    ensures g in s.table
    ensures Inv(s.(table := s.table[g := s.table[g].(ok := false)], results := s.results[a.id := NotRun],
                   worker := SkipCounting(a, todo)))
  {
    EntryLeft(s, a, g);
    Mark(s, a, g);
    Land(s.(table := s.table[g := s.table[g].(ok := false)], results := s.results[a.id := NotRun]),
         SkipCounting(a, todo));
  }

  lemma SkipCountingInv(s: State, a: After, g: GroupId, todo: seq<Item>)
    requires Inv(s) && s.worker == SkipCounting(a, todo) && a.action == Todo(g)
    ensures g in s.table && s.table[g].count > 0 && Inv(Uncounted(s, g, a.id).(worker := Removing(a, todo)))
  {
    EntryLeft(s, a, g);
    SameUncounted(s, g, a, todo);
    Uncount(s, MarksOf(s.worker), g, a.id);
    Land(Uncounted(s, g, a.id), Removing(a, todo));
  }

  lemma SameUncounted(s: State, g: GroupId, a: After, todo: seq<Item>)
    requires g in s.table && g.User? && Internal in s.table && CurrentOk(Inside(s), s.table.Keys, a, todo) &&
      a.action == Todo(g) && a.id in s.placed
    ensures var t := Uncounted(s, g, a.id);
      PcOk(Removing(a, todo), t.table.Keys, Inside(t), t.reg, t.placed, t.settled, t.results, t.pool.Keys, t.waitFor,
           t.main)
  {
    assert Uncounted(s, g, a.id).table.Keys == s.table.Keys;
    assert Inside(Uncounted(s, g, a.id)) == Inside(s);
  }

  lemma LockingInv(s: State, a: After, noError: bool, todo: seq<Item>)
    requires Inv(s) && s.worker == Locking(a, noError, todo) && s.lock.Free?
    ensures Inv(s.(lock := ByWorker, worker := Notifying(a, noError, todo)))
  {
    EntryKnown(s, a);
    Lock(s);
    Land(s.(lock := ByWorker), Notifying(a, noError, todo));
  }

  lemma NotifyingInv(s: State, a: After, noError: bool, todo: seq<Item>)
    requires Inv(s) && s.worker == Notifying(a, noError, todo)
    ensures s.main == Waiting(a) && Inv(s.(done := noError, lock := Free, main := Notified(a),
                                           worker := Removing(a, todo)))
  {
    Notify(s, a, noError);
    Land(s.(done := noError, lock := Free, main := Notified(a)), Removing(a, todo));
  }

  lemma TodoStays(inside: seq<Item>, groups: set<GroupId>, a: After, k: nat, todo: seq<Item>)
    requires CurrentOk(inside, groups, a, todo) && k < |inside| && inside[k] == Blocked(a)
    ensures TodoOk(Dropped(inside, k), todo)
  {
    forall i | 0 <= i < |todo| ensures todo[i] in Dropped(inside, k) {
      StillInside(inside, a, k, todo[i].after);
    }
  }

  lemma LandUncounting(s: State, todo: seq<Item>)
    requires Core(s, NO_MARKS.(extra := 1)) && TodoOk(Inside(s), todo)
    ensures Inv(s.(worker := Uncounting(todo)))
  {
    Land(s, Uncounting(todo));
  }

  lemma RemovingInv(s: State, a: After, todo: seq<Item>)
    requires Inv(s) && s.worker == Removing(a, todo)
    ensures var k := IndexOf(Inside(s), Blocked(a));
      Internal in s.table && k < |s.table[Internal].items| &&
      Inv(s.(table := Without(s.table, k), worker := Uncounting(todo)))
  {
    var k := IndexOf(Inside(s), Blocked(a));
    Remove(s, a, k);
    TodoStays(Inside(s), s.table.Keys, a, k, todo);
    LandUncounting(s.(table := Without(s.table, k)), todo);
  }

  lemma UncountingInv(s: State, todo: seq<Item>)
    requires Inv(s) && s.worker == Uncounting(todo)
    ensures Internal in s.table && s.table[Internal].count > 0
    ensures Inv(s.(table := s.table[Internal := s.table[Internal].(count := s.table[Internal].count - 1)],
                   worker := Scan(todo)))
  {
    UncountEntry(s);
    Land(s.(table := s.table[Internal := s.table[Internal].(count := s.table[Internal].count - 1)]), Scan(todo));
  }

  // ----- all steps, all runs -----

  // The same, said of the step function.

  lemma PlaceShape(s: State, a: After, g: GroupId, todo: seq<Item>)
    requires a.action == Todo(g) && g in s.table && s.table[g].countInFalse > 0
    ensures s.worker == Dispatching(a, todo) ==> StepEntry(s) == PlacedState(s, g, a.id).(worker := Removing(a, todo))
    ensures s.worker == Skipping(a, todo) ==> StepEntry(s) == PlacedState(s, g, a.id).(worker := SkipMarking(a, todo))
  {
  }

  lemma SkipShape(s: State, a: After, g: GroupId, todo: seq<Item>)
    requires a.action == Todo(g) && g in s.table
    ensures s.worker == SkipMarking(a, todo) ==>
      StepEntry(s) == s.(table := s.table[g := s.table[g].(ok := false)], results := s.results[a.id := NotRun],
                         worker := SkipCounting(a, todo))
    ensures s.worker == SkipCounting(a, todo) && s.table[g].count > 0 ==>
      StepEntry(s) == Uncounted(s, g, a.id).(worker := Removing(a, todo))
  {
  }

  lemma PlacingStep(s: State)
    requires Inv(s) && (s.worker.Dispatching? || s.worker.Skipping?)
    ensures Inv(StepEntry(s))
  {
    var a, g, todo := s.worker.a, s.worker.a.action.group, s.worker.todo;
    if s.worker.Dispatching? {
      DispatchingInv(s, a, g, todo);
    } else {
      SkippingInv(s, a, g, todo);
    }
    PlaceShape(s, a, g, todo);
  }

  lemma SkipStep(s: State)
    requires Inv(s) && (s.worker.SkipMarking? || s.worker.SkipCounting?)
    ensures Inv(StepEntry(s))
  {
    var a, g, todo := s.worker.a, s.worker.a.action.group, s.worker.todo;
    if s.worker.SkipMarking? {
      SkipMarkingInv(s, a, g, todo);
    } else {
      SkipCountingInv(s, a, g, todo);
    }
    SkipShape(s, a, g, todo);
  }

  lemma RemoveShape(s: State, a: After, todo: seq<Item>, k: nat)
    requires Internal in s.table && s.worker == Removing(a, todo) && k == IndexOf(Inside(s), Blocked(a)) &&
      k < |Inside(s)|
    ensures StepEntry(s) == s.(table := Without(s.table, k), worker := Uncounting(todo))
  {
  }

  lemma UncountShape(s: State, todo: seq<Item>)
    requires Internal in s.table && s.worker == Uncounting(todo) && s.table[Internal].count > 0
    ensures StepEntry(s) == s.(table := s.table[Internal := s.table[Internal].(count := s.table[Internal].count - 1)],
                               worker := Scan(todo))
  {
  }

  lemma LeavingStep(s: State)
    requires Inv(s) && (s.worker.Removing? || s.worker.Uncounting?)
    ensures Inv(StepEntry(s))
  {
    if s.worker.Removing? {
      RemovingInv(s, s.worker.a, s.worker.todo);
      RemoveShape(s, s.worker.a, s.worker.todo, IndexOf(Inside(s), Blocked(s.worker.a)));
    } else {
      UncountingInv(s, s.worker.todo);
      UncountShape(s, s.worker.todo);
    }
  }

  lemma WakingStep(s: State)
    requires Inv(s) && (s.worker.Starting? || s.worker.Locking? || s.worker.Notifying?) &&
      (s.worker.Locking? ==> s.lock.Free?)
    ensures Inv(StepEntry(s))
  {
    match s.worker
    case Starting(a, todo) => StartingInv(s, a, todo);
    case Locking(a, noError, todo) => LockingInv(s, a, noError, todo);
    case Notifying(a, noError, todo) => NotifyingInv(s, a, noError, todo);
    case _ =>
  }

  lemma CollectShape(s: State, id: GroupId, c: Cmd, items: seq<Item>, ids: seq<GroupId>)
    requires id in s.table
    ensures s.worker == Failing(id, c, items, ids) ==>
      StepWorker(s) == s.(table := s.table[id := s.table[id].(ok := false)], worker := Counting(id, c, items, ids))
    ensures s.worker == Counting(id, c, items, ids) && s.table[id].count > 0 ==>
      StepWorker(s) == Uncounted(s, id, c).(worker := Poll(id, items, ids))
  {
  }

  lemma CollectingStep(s: State)
    requires Inv(s) && (s.worker.Poll? || s.worker.Failing? || s.worker.Counting?)
    ensures Inv(StepWorker(s))
  {
    match s.worker
    case Poll(id, items, ids) => PollInv(s, id, items, ids);
    case Failing(id, c, items, ids) => FailingInv(s, id, c, items, ids); CollectShape(s, id, c, items, ids);
    case Counting(id, c, items, ids) => CountingInv(s, id, c, items, ids); CollectShape(s, id, c, items, ids);
    case _ =>
  }

  lemma ReadingStep(s: State)
    requires Inv(s) && (s.worker.Visit? || s.worker.AftersHead? || s.worker.Scan? || s.worker.Sum? || s.worker.Oks?)
    ensures Inv(s.(worker := NextRead(s.table, s.worker)))
  {
    match s.worker
    case Visit(ids) => VisitInv(s, ids);
    case AftersHead => AftersHeadInv(s);
    case Scan(todo) => ScanInv(s, todo);
    case Sum(a, left, sum, todo) => SumInv(s, a, left, sum, todo);
    case Oks(a, left, sum, todo) => OksInv(s, a, left, sum, todo);
    case _ =>
  }

  lemma WorkerStepInv(s: State)
    requires Inv(s) && Enabled(s, WorkerStep)
    ensures Inv(Step(s, WorkerStep))
  {
    var w := s.worker;
    if w.Poll? || w.Failing? || w.Counting? {
      CollectingStep(s);
    } else if w.Visit? || w.AftersHead? || w.Scan? || w.Sum? || w.Oks? {
      ReadingStep(s);
    } else if w.Dispatching? || w.Skipping? {
      PlacingStep(s);
    } else if w.SkipMarking? || w.SkipCounting? {
      SkipStep(s);
    } else if w.Removing? || w.Uncounting? {
      LeavingStep(s);
    } else {
      WakingStep(s);
    }
  }

  lemma WorkerStartInv(s: State, ids: seq<GroupId>)
    requires Inv(s) && Enabled(s, WorkerStart(ids))
    ensures Inv(Step(s, WorkerStart(ids)))
  {
    Land(s, Visit(ids));
  }

  /** Whatever happens next, the invariant is kept; in particular the worker never raises. */
  lemma StepInv(s: State, e: Event)
    requires Inv(s) && Enabled(s, e)
    ensures Inv(Step(s, e))
  {
    match e
    case SkipRun(g) => SkipRunInv(s, g);
    case Run(g) => RunInv(s, g);
    case RunAfter(g, afters) => RunAfterInv(s, g, afters);
    case Await(args) => AwaitInv(s, args);
    case MainStep => MainStepInv(s);
    case PoolEnd(c, ok) => PoolEndInv(s, c, ok);
    case WorkerStart(ids) => WorkerStartInv(s, ids);
    case WorkerStep => WorkerStepInv(s);
  }

  lemma {:induction false} RunKeepsInv(states: seq<State>, events: seq<Event>, i: nat)
    requires IsRun(states, events) && i < |states|
    ensures Inv(states[i])
  {
    if i == 0 {
      InitialInv();
    } else {
      RunKeepsInv(states, events, i - 1);
      StepInv(states[i - 1], events[i - 1]);
    }
  }
}
