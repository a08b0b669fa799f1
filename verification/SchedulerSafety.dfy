/** What holds of every run of the parallel builder, whatever the interleaving. */
module SchedulerSafety {
  import opened Attempts
  import opened Groups
  import opened Scheduler
  import opened SchedulerInvariant
  import opened SchedulerSteps

  // ----- history: registrations and results are never rewritten -----

  /** Serial numbers about to be used are not used yet. */
  ghost predicate Fresh(s: State) {
    && s.next !in s.reg
    && (s.main.Launching? ==> s.main.cmd !in s.reg)
    && (s.worker.SkipMarking? ==> s.worker.a.id !in s.results)
  }

  ghost predicate Later(s: State, t: State) {
    && s.next <= t.next
    && (forall c :: c in s.reg ==> c in t.reg && t.reg[c] == s.reg[c])
    && (forall c :: c in s.results ==> c in t.results && t.results[c] == s.results[c])
  }

  lemma InvFresh(s: State)
    requires Inv(s)
    ensures Fresh(s)
  {
    FreshNext(s, MarksOf(s.worker));
    FreshMark(s);
  }

  lemma FreshNext(s: State, k: Marks)
    requires Core(s, k)
    ensures s.next !in s.reg && (s.main.Launching? ==> s.main.cmd !in s.reg)
  {
  }

  lemma FreshMark(s: State)
    requires WorkerOk(s)
    ensures s.worker.SkipMarking? ==> s.worker.a.id !in s.results
  {
  }

  ghost predicate SameRegister(s: State, t: State) {
    t.next == s.next && t.reg == s.reg && t.waitFor == s.waitFor && EntryOf(t.main) == EntryOf(s.main)
  }

  lemma PlaceEffects(s: State, a: After, pc: WorkerPc)
    requires a.action.Todo?
    ensures SameRegister(s, StepPlace(s, a, pc))
  {
    var (t, r) := AddForBlocked(s.table, a.action.group, Item.Running(a.id));
    PlacedOrNot(s, a, pc, t);
  }

  lemma PlacedOrNot(s: State, a: After, pc: WorkerPc, t: Table)
    ensures SameRegister(s, Crash(s.(table := t))) &&
      SameRegister(s, s.(table := t, placed := s.placed + {a.id}, worker := pc))
  {
  }

  lemma PlacingEffects(s: State)
    requires s.worker.Dispatching? || s.worker.Skipping?
    ensures SameRegister(s, StepEntry(s))
  {
    var a, todo := s.worker.a, s.worker.todo;
    if a.action.Todo? {
      PlaceEffects(s, a, if s.worker.Dispatching? then Removing(a, todo) else SkipMarking(a, todo));
    }
  }

  lemma SkipEffects(s: State)
    requires s.worker.SkipMarking? || s.worker.SkipCounting?
    ensures SameRegister(s, StepEntry(s))
  {
  }

  lemma EntryEffects(s: State)
    ensures SameRegister(s, StepEntry(s))
  {
    if s.worker.Dispatching? || s.worker.Skipping? {
      PlacingEffects(s);
    } else if s.worker.SkipMarking? || s.worker.SkipCounting? {
      SkipEffects(s);
    }
  }

  lemma EntryRecords(s: State)
    requires s.worker.SkipMarking? ==> s.worker.a.id !in s.results
    ensures forall c :: c in s.results ==> c in StepEntry(s).results && StepEntry(s).results[c] == s.results[c]
  {
    if s.worker.SkipMarking? && s.worker.a.action.Todo? {
      assert StepEntry(s).results == s.results || StepEntry(s).results == s.results[s.worker.a.id := NotRun];
    } else {
      assert StepEntry(s).results == s.results;
    }
  }

  ghost predicate Records(s: State, t: State) {
    && t.next == s.next && t.reg == s.reg && t.waitFor == s.waitFor && t.main == s.main
    && (forall c :: c in s.results ==> c in t.results && t.results[c] == s.results[c])
  }

  lemma CollectEffects(s: State, id: GroupId, c: Cmd, items: seq<Item>, ids: seq<GroupId>)
    requires c in s.pool && c !in s.results
    ensures Records(s, StepCollect(s, id, c, items, ids))
  {
  }

  lemma PollEffects(s: State, id: GroupId, items: seq<Item>, ids: seq<GroupId>)
    ensures Records(s, StepPoll(s, id, items, ids))
  {
    if items != [] && items[0].Running? {
      var c := items[0].cmd;
      if c !in s.results && c in s.pool {
        CollectEffects(s, id, c, items[1..], ids);
      }
    }
  }

  /** The worker registers nothing, and what it records stays recorded. */
  lemma WorkerEffects(s: State)
    requires Fresh(s) && Enabled(s, WorkerStep)
    ensures var t := StepWorker(s);
      && t.next == s.next && t.reg == s.reg && t.waitFor == s.waitFor && EntryOf(t.main) == EntryOf(s.main)
      && (forall c :: c in s.results ==> c in t.results && t.results[c] == s.results[c])
  {
    EntryEffects(s);
    EntryRecords(s);
    if s.worker.Poll? {
      PollEffects(s, s.worker.id, s.worker.items, s.worker.ids);
    }
  }

  lemma MainEffects(s: State)
    requires Fresh(s) && Enabled(s, MainStep)
    ensures Later(s, StepMain(s))
  {
  }

  lemma StepHistory(s: State, e: Event)
    requires Fresh(s) && Enabled(s, e)
    ensures Later(s, Step(s, e))
  {
    if e.WorkerStep? {
      WorkerEffects(s);
    } else if e.MainStep? {
      MainEffects(s);
    }
  }

  lemma {:induction false} RunHistory(states: seq<State>, events: seq<Event>, i: nat, j: nat)
    requires IsRun(states, events) && i <= j < |states|
    ensures Later(states[i], states[j])
    decreases j - i
  {
    if i < j {
      RunHistory(states, events, i, j - 1);
      FreshAt(states, events, j - 1);
      StepHistory(states[j - 1], events[j - 1]);
    }
  }

  lemma FreshAt(states: seq<State>, events: seq<Event>, i: nat)
    requires IsRun(states, events) && i < |states|
    ensures Fresh(states[i])
  {
    RunKeepsInv(states, events, i);
    InvFresh(states[i]);
  }

  // ----- safety of dispatch -----

  /** Command `d` is counted in group `g`: it is in the group's list, or blocked on its way there. */
  ghost predicate CountedNow(s: State, g: GroupId, d: Cmd) {
    || (g in s.table && Item.Running(d) in s.table[g].items)
    || (exists afters :: Blocked(After(d, afters, Todo(g))) in Inside(s))
  }

  /** It ran, ended well, and its dependencies were saved. */
  predicate Succeeded(s: State, d: Cmd) {
    d in s.pool && s.pool[d].Succeeded? && d in s.depsSaved && d in s.results && s.results[d].Saved?
  }

  lemma CountedIsRegistered(s: State, g: GroupId, d: Cmd)
    requires Inv(s) && CountedNow(s, g, d)
    ensures d in s.reg && s.reg[d].group == g
  {
    if g in s.table && Item.Running(d) in s.table[g].items {
      assert RollsOf(s.table)[g] == s.table[g].items;
      var i :| 0 <= i < |s.table[g].items| && s.table[g].items[i] == Item.Running(d);
      assert g.User?;
    } else {
      var afters :| Blocked(After(d, afters, Todo(g))) in Inside(s);
      var i :| 0 <= i < |Inside(s)| && Inside(s)[i] == Blocked(After(d, afters, Todo(g)));
    }
  }

  lemma SavedSucceeded(s: State, d: Cmd)
    requires Inv(s) && d in s.results && s.results[d].Saved?
    ensures Succeeded(s, d)
  {
  }

  /** When a blocked command has been handed to the pool, every command that was counted in a
      group it awaits when it was registered has run, succeeded and had its dependencies
      saved, although the worker reads the groups' counters one at a time while the main
      thread goes on registering. */
  lemma DispatchSafe(states: seq<State>, events: seq<Event>, i: nat, j: nat, g: GroupId, afters: seq<GroupId>, k: nat,
                     d: Cmd)
    requires IsRun(states, events) && i < |events| && i < j < |states|
    requires events[i] == RunAfter(g, afters) && k < |afters| && CountedNow(states[i], afters[k], d)
    requires states[i].next in states[j].pool
    ensures Succeeded(states[j], d)
  {
    var c := states[i].next;
    RunKeepsInv(states, events, i);
    CountedIsRegistered(states[i], afters[k], d);
    RunHistory(states, events, i + 1, j);
    assert d in states[i + 1].reg[c].need;
    RunKeepsInv(states, events, j);
    SavedSucceeded(states[j], d);
  }

  // ----- failures propagate -----

  /** Each command of the path was registered as waiting for the next one. */
  ghost predicate WaitsAlong(reg: Regs, path: seq<Cmd>) {
    forall i :: 0 <= i < |path| - 1 ==> path[i] in reg && path[i + 1] in reg[path[i]].need
  }

  lemma {:induction false} RunsOnlyAfter(s: State, path: seq<Cmd>, i: nat)
    requires Inv(s) && WaitsAlong(s.reg, path) && 0 < i < |path| && path[0] in s.pool
    ensures Succeeded(s, path[i])
  {
    if i > 1 {
      RunsOnlyAfter(s, path, i - 1);
    }
    assert path[i] in s.reg[path[i - 1]].need;
    SavedSucceeded(s, path[i]);
  }

  /** A command that waits, directly or through others, for one that did not succeed is never
      handed to the pool, at any later point of the run. */
  lemma FailurePropagates(states: seq<State>, events: seq<Event>, i: nat, j: nat, path: seq<Cmd>)
    requires IsRun(states, events) && i <= j < |states| && |path| > 1
    requires WaitsAlong(states[i].reg, path)
    requires path[|path| - 1] in states[i].results && !states[i].results[path[|path| - 1]].Saved?
    ensures path[0] !in states[j].pool
  {
    RunHistory(states, events, i, j);
    RunKeepsInv(states, events, j);
    if path[0] in states[j].pool {
      RunsOnlyAfter(states[j], path, |path| - 1);
    }
  }

  // ----- waiting in the main thread -----

  function EntryOf(m: MainPc): Option<After> {
    if m.Enlisted? || m.Waiting? || m.Notified? then Some(m.entry) else None
  }

  predicate HasEntry(s: State, n: nat) {
    EntryOf(s.main).Some? && EntryOf(s.main).value.id == n
  }

  /** The entry numbered `n`, while it lasts, stands for the same commands. */
  predicate Steady(s: State, t: State, n: nat) {
    HasEntry(t, n) ==> HasEntry(s, n) && t.waitFor == s.waitFor
  }

  lemma StepSteady(s: State, e: Event, n: nat)
    requires Fresh(s) && Enabled(s, e) && n < s.next
    ensures Steady(s, Step(s, e), n)
  {
    if e.WorkerStep? {
      WorkerEffects(s);
    }
  }

  lemma WaitStart(s: State)
    requires s.main.Acquired?
    ensures Step(s, MainStep).waitFor == CountedIn(s, s.main.args) && Step(s, MainStep).next == s.next + 1
  {
  }

  ghost predicate WaitsSteadily(states: seq<State>, lo: nat, n: nat) {
    forall j :: lo <= j < |states| - 1 ==> Steady(states[j], states[j + 1], n)
  }

  lemma RunSteady(states: seq<State>, events: seq<Event>, lo: nat, n: nat)
    requires IsRun(states, events) && lo < |states| && n < states[lo].next
    ensures WaitsSteadily(states, lo, n)
  {
    forall j | lo <= j < |states| - 1 ensures Steady(states[j], states[j + 1], n) {
      RunHistory(states, events, lo, j);
      FreshAt(states, events, j);
      StepSteady(states[j], events[j], n);
    }
  }

  lemma {:induction false} SteadyBack(states: seq<State>, lo: nat, j: nat, n: nat)
    requires lo <= j < |states| && WaitsSteadily(states, lo, n) && HasEntry(states[j], n)
    ensures states[j].waitFor == states[lo].waitFor
    decreases j
  {
    if lo < j {
      SteadyBack(states, lo, j - 1, n);
    }
  }

  lemma WaitKept(states: seq<State>, events: seq<Event>, i: nat, j: nat)
    requires IsRun(states, events) && i < |events| && i < j < |states|
    requires states[i].main.Acquired? && events[i] == MainStep && HasEntry(states[j], states[i].next)
    ensures states[j].waitFor == CountedIn(states[i], states[i].main.args)
  {
    WaitStart(states[i]);
    RunSteady(states, events, i + 1, states[i].next);
    SteadyBack(states, i + 1, j, states[i].next);
  }

  /** When the main thread's wait ends without error, every command counted in an awaited
      group when it started waiting has succeeded. */
  lemma WaitSafe(states: seq<State>, events: seq<Event>, i: nat, j: nat, k: nat, d: Cmd)
    requires IsRun(states, events) && i < |events| && i < j < |states|
    requires states[i].main.Acquired? && events[i] == MainStep
    requires states[j].main == Notified(After(states[i].next, states[i].main.args, Wake)) && states[j].done
    requires k < |states[i].main.args| && CountedNow(states[i], states[i].main.args[k], d)
    ensures Succeeded(states[j], d)
  {
    RunKeepsInv(states, events, i);
    CountedIsRegistered(states[i], states[i].main.args[k], d);
    WaitKept(states, events, i, j);
    RunKeepsInv(states, events, j);
    SavedSucceeded(states[j], d);
  }

  /** The wake-up is never lost: when the worker notifies, the main thread is waiting for
      exactly that entry, and it is woken with the worker's verdict. */
  lemma WakeUpNotLost(states: seq<State>, events: seq<Event>, i: nat)
    requires IsRun(states, events) && i < |events| && states[i].worker.Notifying? && events[i] == WorkerStep
    ensures states[i].main == Waiting(states[i].worker.a)
    ensures states[i + 1].main == Notified(states[i].worker.a) && states[i + 1].done == states[i].worker.noError
  {
    RunKeepsInv(states, events, i);
    var a, noError, todo := states[i].worker.a, states[i].worker.noError, states[i].worker.todo;
    assert states[i].worker == Notifying(a, noError, todo);
    assert states[i + 1] == StepEntry(states[i]);
  }

  // ----- accounting -----

  /** Commands in the list of `g` whose result is not recorded. */
  function Unfinished(s: State, g: GroupId): set<Cmd>
    requires g in s.table
  {
    set i | 0 <= i < |s.table[g].items| && s.table[g].items[i].Running? && s.table[g].items[i].cmd !in s.results
      :: s.table[g].items[i].cmd
  }

  /** Blocked commands destined for `g`. */
  function Destined(s: State, g: GroupId): set<Cmd> {
    set i | 0 <= i < |Inside(s)| && Inside(s)[i].Blocked? &&
    Inside(s)[i].after.action == Todo(g) :: Inside(s)[i].after.id
  }

  /** The update of a pair of counters that a thread has begun and not finished. */
  function Recording(s: State, g: GroupId): int {
    match MarksOf(s.worker).inFlight
    case Some(c) => if c in s.reg && s.reg[c].group == g then 1 else 0
    case None => 0
  }

  function Registering(s: State, g: GroupId): int {
    if s.main.Blocking? && s.main.after.action == Todo(g) then 1 else 0
  }

  function TakingOut(s: State, g: GroupId): int {
    match MarksOf(s.worker).leaver
    case Some(a) => if a.action == Todo(g) then 1 else 0
    case None => 0
  }

  lemma OpenSplit(items: seq<Item>, reg: Regs, placed: set<Cmd>, settled: set<Cmd>, results: map<Cmd, Outcome>,
                  flying: Option<Cmd>, g: GroupId,
                  unfinished: set<Cmd>)
    requires UserList(items, reg, placed, g) && SettledOk(settled, results, flying)
    requires forall c :: c in placed && c in reg && reg[c].group == g ==> Item.Running(c) in items
    requires forall c :: c in results ==> c in placed
    requires flying.Some? ==> flying.value in results && flying.value !in settled
    requires unfinished == set i | 0 <= i < |items| && items[i].Running? && items[i].cmd !in results :: items[i].cmd
    ensures |Open(reg, settled, g)| == |unfinished| + |Unplaced(reg, placed, g)|
      + if flying.Some? && flying.value in reg && reg[flying.value].group == g then 1 else 0
  {
    var open, unplaced := Open(reg, settled, g), Unplaced(reg, placed, g);
    var fly := if flying.Some? && flying.value in reg && reg[flying.value].group == g then {flying.value} else {};
    forall c | c in open && c !in unplaced && c !in fly ensures c in unfinished {
      var i :| 0 <= i < |items| && items[i] == Item.Running(c);
    }
    forall c | c in unfinished ensures c in open && c !in fly && c !in unplaced {
      var i :| 0 <= i < |items| && items[i].Running? && items[i].cmd == c;
    }
    assert open == unfinished + unplaced + fly;
    assert unplaced !! unfinished && fly !! (unplaced + unfinished);
  }

  lemma DestinedCovers(inside: seq<Item>, reg: Regs, placed: set<Cmd>, leaver: Option<After>, incoming: Option<After>,
                       g: GroupId, destined: set<Cmd>, c: Cmd)
    requires BlockedOk(inside, reg, placed, incoming)
    requires destined == set i | 0 <= i < |inside| && inside[i].Blocked? &&
      inside[i].after.action == Todo(g) :: inside[i].after.id
    ensures c in Unplaced(reg, placed, g) ==>
      c in destined || (incoming.Some? && incoming.value.action == Todo(g) && incoming.value.id == c)
    ensures leaver.Some? && Blocked(leaver.value) in inside && leaver.value.action == Todo(g) ==>
      leaver.value.id in destined
  {
    if c in Unplaced(reg, placed, g) && Blocked(AfterOf(reg, c)) in inside {
      var i :| 0 <= i < |inside| && inside[i] == Blocked(AfterOf(reg, c));
    }
    if leaver.Some? && Blocked(leaver.value) in inside && leaver.value.action == Todo(g) {
      var i :| 0 <= i < |inside| && inside[i] == Blocked(leaver.value);
    }
  }

  lemma DestinedSource(inside: seq<Item>, reg: Regs, placed: set<Cmd>, next: nat, waiter: Option<After>,
                       leaver: Option<After>,
                       g: GroupId, destined: set<Cmd>, c: Cmd)
    requires EntriesOk(inside, reg, placed, next, waiter, leaver)
    requires destined == set i | 0 <= i < |inside| && inside[i].Blocked? &&
      inside[i].after.action == Todo(g) :: inside[i].after.id
    ensures c in destined ==>
      c in Unplaced(reg, placed, g) || leaver == Some(After(c, if c in reg then reg[c].awaits else [], Todo(g)))
  {
    if c in destined {
      var i :| 0 <= i < |inside| && inside[i].Blocked? && inside[i].after.action == Todo(g) && inside[i].after.id == c;
    }
  }

  /** The entry on its way out, or on its way in, if it belongs to the group. */
  function Moving(entry: Option<After>, g: GroupId): set<Cmd> {
    if entry.Some? && entry.value.action == Todo(g) then {entry.value.id} else {}
  }

  lemma SameCommands(inside: seq<Item>, reg: Regs, placed: set<Cmd>, next: nat, waiter: Option<After>,
                     leaver: Option<After>,
                     incoming: Option<After>, g: GroupId, destined: set<Cmd>)
    requires EntriesOk(inside, reg, placed, next, waiter, leaver) && BlockedOk(inside, reg, placed, incoming)
    requires leaver.Some? ==>
      Blocked(leaver.value) in inside && (leaver.value.action.Todo? ==> leaver.value.id in placed)
    requires destined == set i | 0 <= i < |inside| && inside[i].Blocked? &&
      inside[i].after.action == Todo(g) :: inside[i].after.id
    ensures Unplaced(reg, placed, g) + Moving(leaver, g) == destined + Moving(incoming, g)
  {
    forall c | c in Unplaced(reg, placed, g) + Moving(leaver, g) ensures c in destined + Moving(incoming, g) {
      DestinedCovers(inside, reg, placed, leaver, incoming, g, destined, c);
    }
    forall c | c in destined + Moving(incoming, g) ensures c in Unplaced(reg, placed, g) + Moving(leaver, g) {
      DestinedSource(inside, reg, placed, next, waiter, leaver, g, destined, c);
    }
  }

  lemma MovingApart(inside: seq<Item>, reg: Regs, placed: set<Cmd>, leaver: Option<After>, incoming: Option<After>,
                    g: GroupId, destined: set<Cmd>)
    requires BlockedOk(inside, reg, placed, incoming)
    requires leaver.Some? && leaver.value.action.Todo? ==> leaver.value.id in placed
    requires destined == set i | 0 <= i < |inside| && inside[i].Blocked? &&
      inside[i].after.action == Todo(g) :: inside[i].after.id
    ensures Unplaced(reg, placed, g) !! Moving(leaver, g) && destined !! Moving(incoming, g)
  {
  }

  lemma UnplacedSplit(inside: seq<Item>, reg: Regs, placed: set<Cmd>, next: nat, waiter: Option<After>,
                      leaver: Option<After>,
                      incoming: Option<After>, g: GroupId, destined: set<Cmd>)
    requires EntriesOk(inside, reg, placed, next, waiter, leaver) && BlockedOk(inside, reg, placed, incoming)
    requires leaver.Some? ==>
      Blocked(leaver.value) in inside && (leaver.value.action.Todo? ==> leaver.value.id in placed)
    requires destined == set i | 0 <= i < |inside| && inside[i].Blocked? &&
      inside[i].after.action == Todo(g) :: inside[i].after.id
    ensures |Unplaced(reg, placed, g)| + |Moving(leaver, g)| == |destined| + |Moving(incoming, g)|
  {
    SameCommands(inside, reg, placed, next, waiter, leaver, incoming, g, destined);
    MovingApart(inside, reg, placed, leaver, incoming, g, destined);
    Disjoint(Unplaced(reg, placed, g), Moving(leaver, g));
    Disjoint(destined, Moving(incoming, g));
  }

  lemma Disjoint(a: set<Cmd>, b: set<Cmd>)
    requires a !! b
    ensures |a + b| == |a| + |b|
  {
  }

  /** What the worker is in the middle of is still where it found it. */
  lemma MarksKept(s: State)
    requires WorkerOk(s)
    ensures var k := MarksOf(s.worker);
      && (k.leaver.Some? ==>
           Blocked(k.leaver.value) in Inside(s) && (k.leaver.value.action.Todo? ==> k.leaver.value.id in s.placed))
      && (k.inFlight.Some? ==> k.inFlight.value in s.results && k.inFlight.value !in s.settled)
  {
  }

  lemma ListOf(s: State, k: Marks, g: GroupId)
    requires Core(s, k) && g in s.table && g.User?
    ensures UserList(s.table[g].items, s.reg, s.placed, g)
    ensures forall c :: c in s.placed && c in s.reg && s.reg[c].group == g ==> Item.Running(c) in s.table[g].items
    ensures s.table[g].count == |Open(s.reg, s.settled, g)| && s.table[g].countInFalse == |Unplaced(s.reg, s.placed, g)|
  {
    assert RollsOf(s.table)[g] == s.table[g].items;
  }

  lemma CountersOf(s: State, g: GroupId)
    requires Inv(s) && g in s.table && g.User?
    ensures s.table[g].count == |Unfinished(s, g)| + s.table[g].countInFalse + Recording(s, g)
    ensures s.table[g].countInFalse + TakingOut(s, g) == |Destined(s, g)| + Registering(s, g)
    ensures s.table[g].count >= s.table[g].countInFalse >= 0 && !s.worker.Crashed?
  {
    var k := MarksOf(s.worker);
    MarksKept(s);
    ListOf(s, k, g);
    OpenSplit(s.table[g].items, s.reg, s.placed, s.settled, s.results, k.inFlight, g, Unfinished(s, g));
    UnplacedSplit(Inside(s), s.reg, s.placed, s.next, Awaited(s.main), k.leaver, BeingBlocked(s.main), g,
                  Destined(s, g));
  }

  /** In every state of every run a group's counter is its unfinished items plus its
      `countInFalse`, and that is the blocked commands destined for it, up to the one paired
      update each thread may have begun; so no counter is ever below zero, and the worker
      never meets a missing group or a counter it cannot decrement. */
  lemma Accounting(states: seq<State>, events: seq<Event>, i: nat, g: GroupId)
    requires IsRun(states, events) && i < |states| && g in states[i].table && g.User?
    ensures var s, v := states[i], states[i].table[g];
      && v.count == |Unfinished(s, g)| + v.countInFalse + Recording(s, g)
      && v.countInFalse + TakingOut(s, g) == |Destined(s, g)| + Registering(s, g)
      && v.count >= v.countInFalse >= 0
    ensures !states[i].worker.Crashed?
  {
    RunKeepsInv(states, events, i);
    CountersOf(states[i], g);
  }
}
