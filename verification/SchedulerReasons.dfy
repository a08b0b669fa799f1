/** Nothing is given up without a reason: what every step keeps of flags, verdicts and commands that
    are not run. */
module SchedulerReasons {
  import opened Attempts
  import opened Groups
  import opened Scheduler
  import opened SchedulerInvariant
  import opened SchedulerSteps
  import opened SchedulerSafety

  /** Some command of one of the groups is recorded as not having succeeded. */
  ghost predicate FailedIn(reg: Regs, results: map<Cmd, Outcome>, ids: seq<GroupId>) {
    exists d :: Bad(results, d) && d in reg && reg[d].group in ids
  }

  predicate Bad(results: map<Cmd, Outcome>, d: Cmd) {
    d in results && !results[d].Saved?
  }

  // ----- the flags of the groups -----

  /** Every step keeps the groups and their flags, but for the two that flag a group. */
  ghost predicate KeepsFlags(t: Table, u: Table, flagged: GroupId -> bool) {
    u.Keys == t.Keys && forall g :: g in t && !u[g].ok ==> !t[g].ok || flagged(g)
  }

  lemma PlacingFlags(s: State, a: After, pc: WorkerPc)
    requires a.action.Todo?
    ensures KeepsFlags(s.table, StepPlace(s, a, pc).table, _ => false)
  {
    PlacedFlags(s.table, a.action.group, Item.Running(a.id));
    PlacingTable(s, a, pc);
  }

  lemma PlacedFlags(t: Table, id: GroupId, item: Item)
    ensures KeepsFlags(t, AddForBlocked(t, id, item).0, _ => false)
  {
  }

  lemma PlacingTable(s: State, a: After, pc: WorkerPc)
    requires a.action.Todo?
    ensures StepPlace(s, a, pc).table == AddForBlocked(s.table, a.action.group, Item.Running(a.id)).0
  {
    var (t, r) := AddForBlocked(s.table, a.action.group, Item.Running(a.id));
    PlaceEither(s, a, pc, t);
  }

  lemma EntryFlags(s: State)
    requires !s.worker.SkipMarking?
    ensures KeepsFlags(s.table, StepEntry(s).table, _ => false)
  {
    if s.worker.Dispatching? || s.worker.Skipping? {
      var a, todo := s.worker.a, s.worker.todo;
      if a.action.Todo? {
        PlacingFlags(s, a, if s.worker.Dispatching? then Removing(a, todo) else SkipMarking(a, todo));
      }
    }
  }

  /** The group that a step flags. */
  predicate Flagging(w: WorkerPc, g: GroupId) {
    (w.Failing? && w.id == g) || (w.SkipMarking? && w.a.action == Todo(g))
  }

  lemma PollFlags(s: State, id: GroupId, items: seq<Item>, ids: seq<GroupId>)
    ensures StepPoll(s, id, items, ids).table == s.table
  {
    if items != [] && items[0].Running? && items[0].cmd in s.pool {
      CollectFlags(s, id, items[0].cmd, items[1..], ids);
    }
  }

  lemma CollectFlags(s: State, id: GroupId, c: Cmd, items: seq<Item>, ids: seq<GroupId>)
    requires c in s.pool
    ensures StepCollect(s, id, c, items, ids).table == s.table
  {
  }

  lemma CountFlags(s: State)
    requires Enabled(s, WorkerStep) && Counts(s.worker)
    ensures KeepsFlags(s.table, StepWorker(s).table, g => Flagging(s.worker, g))
  {
    if s.worker.Failing? {
      FailKeeps(s, SetOk(s.table, s.worker.id, false));
    } else {
      UncountKeeps(s, DecCount(s.table, s.worker.id));
    }
  }

  lemma MarkFlags(s: State)
    requires s.worker.SkipMarking?
    ensures KeepsFlags(s.table, StepEntry(s).table, g => Flagging(s.worker, g))
  {
    if s.worker.a.action.Todo? {
      MarkShape(s, SetOk(s.table, s.worker.a.action.group, false));
    }
  }

  lemma MarkShape(s: State, r: Attempt<Table>)
    requires s.worker.SkipMarking? && s.worker.a.action.Todo? && r == SetOk(s.table, s.worker.a.action.group, false)
    ensures StepEntry(s).table == if r.Raised? then s.table else r.value
  {
  }

  lemma WorkerFlags(s: State)
    requires Enabled(s, WorkerStep)
    ensures KeepsFlags(s.table, StepWorker(s).table, g => Flagging(s.worker, g))
  {
    if s.worker.Poll? {
      PollFlags(s, s.worker.id, s.worker.items, s.worker.ids);
    } else if Counts(s.worker) {
      CountFlags(s);
    } else if s.worker.SkipMarking? {
      MarkFlags(s);
    } else if !Reads(s.worker) {
      EntryFlags(s);
    }
  }

  // ----- what is kept -----

  ghost predicate FlagsFounded(t: Table, reg: Regs, results: map<Cmd, Outcome>) {
    forall g :: g in t && !t[g].ok ==> FailedIn(reg, results, [g])
  }

  /** A verdict that the worker is about to carry out has a reason. */
  ghost predicate WorkerFounded(w: WorkerPc, reg: Regs, results: map<Cmd, Outcome>) {
    match w
    case Skipping(a, _) => FailedIn(reg, results, a.afters)
    case SkipMarking(a, _) => FailedIn(reg, results, a.afters)
    case Locking(a, noError, _) => !noError ==> FailedIn(reg, results, a.afters)
    case Notifying(a, noError, _) => !noError ==> FailedIn(reg, results, a.afters)
    case _ => true
  }

  /** The main thread waits for the commands of the groups that it named, and a bad end has a reason. */
  ghost predicate MainFounded(m: MainPc, done: bool, waitFor: set<Cmd>, reg: Regs, results: map<Cmd, Outcome>) {
    && (EntryOf(m).Some? ==> forall c :: c in waitFor <==> c in reg && reg[c].group in EntryOf(m).value.afters)
    && (m.Notified? && !done ==> FailedIn(reg, results, m.entry.afters))
    && (m.Exited? ==> exists d :: Bad(results, d))
  }

  /** A command that was not run waits for one that is recorded as not having succeeded. */
  ghost predicate SkipsFounded(reg: Regs, results: map<Cmd, Outcome>) {
    forall c :: c in results && results[c].NotRun? ==> c in reg && FailedIn(reg, results, reg[c].awaits)
  }

  ghost predicate Founded(s: State) {
    && FlagsFounded(s.table, s.reg, s.results)
    && WorkerFounded(s.worker, s.reg, s.results)
    && MainFounded(s.main, s.done, s.waitFor, s.reg, s.results)
    && SkipsFounded(s.reg, s.results)
  }

  lemma StillFailed(s: State, t: State, ids: seq<GroupId>)
    requires Later(s, t) && FailedIn(s.reg, s.results, ids)
    ensures FailedIn(t.reg, t.results, ids)
  {
    var d :| Bad(s.results, d) && d in s.reg && s.reg[d].group in ids;
    assert Bad(t.results, d) && d in t.reg && t.reg[d].group in ids;
  }

  lemma FailedAmong(reg: Regs, results: map<Cmd, Outcome>, g: GroupId, ids: seq<GroupId>)
    requires FailedIn(reg, results, [g]) && g in ids
    ensures FailedIn(reg, results, ids)
  {
    var d :| Bad(results, d) && d in reg && reg[d].group in [g];
  }

  // ----- the worker's decisions -----

  /** A decision is made on counts, and on flags that are down only for a reason. */
  lemma DecisionFounded(s: State, a: After, sum: int, noError: bool, todo: seq<Item>)
    requires !noError ==> FailedIn(s.reg, s.results, a.afters)
    ensures WorkerFounded(Decide(a, sum, noError, todo), s.reg, s.results)
  {
  }

  lemma ReadingFounded(s: State)
    requires Inv(s) && Founded(s)
    requires s.worker.Visit? || s.worker.AftersHead? || s.worker.Scan? || s.worker.Sum? || s.worker.Oks?
    ensures WorkerFounded(NextRead(s.table, s.worker), s.reg, s.results)
  {
    if s.worker.Oks? {
      var a, left, sum, todo := s.worker.a, s.worker.left, s.worker.sum, s.worker.todo;
      if left == [] {
        DecisionFounded(s, a, sum, true, todo);
      } else {
        PassOne(left, a.afters);
        if left[0] in s.table && !s.table[left[0]].ok {
          FailedAmong(s.reg, s.results, left[0], a.afters);
          DecisionFounded(s, a, sum, false, todo);
        }
      }
    }
  }

  // ----- the worker's steps -----

  lemma PlaceKeeps(s: State, a: After, pc: WorkerPc)
    requires a.action.Todo?
    ensures var t := StepPlace(s, a, pc);
      && t.results == s.results && t.main == s.main && t.done == s.done && (t.worker == pc || t.worker.Crashed?)
  {
    var (t, r) := AddForBlocked(s.table, a.action.group, Item.Running(a.id));
    PlaceEither(s, a, pc, t);
  }

  lemma PlaceEither(s: State, a: After, pc: WorkerPc, t: Table)
    ensures var u := Crash(s.(table := t));
      u.results == s.results && u.main == s.main && u.done == s.done && u.table == t
    ensures var u := s.(table := t, placed := s.placed + {a.id}, worker := pc);
      u.results == s.results && u.main == s.main && u.done == s.done && u.table == t
  {
  }

  /** What a step at an entry does to the results, but for marking it as not run. */
  lemma EntryKeeps(s: State)
    requires !s.worker.SkipMarking? && !s.worker.Notifying?
    ensures var t := StepEntry(s); t.results == s.results && t.main == s.main && t.done == s.done
  {
    if s.worker.Dispatching? || s.worker.Skipping? {
      var a, todo := s.worker.a, s.worker.todo;
      if a.action.Todo? {
        PlaceKeeps(s, a, if s.worker.Dispatching? then Removing(a, todo) else SkipMarking(a, todo));
      }
    }
  }

  /** Where the worker goes from an entry. */
  lemma EntryNext(s: State)
    ensures var w := StepEntry(s).worker;
      || (s.worker.Skipping? && w == SkipMarking(s.worker.a, s.worker.todo))
      || (s.worker.Locking? && w == Notifying(s.worker.a, s.worker.noError, s.worker.todo))
      || w == s.worker || !Verdict(w)
  {
    if s.worker.Dispatching? || s.worker.Skipping? {
      var a, todo := s.worker.a, s.worker.todo;
      if a.action.Todo? {
        PlaceKeeps(s, a, if s.worker.Dispatching? then Removing(a, todo) else SkipMarking(a, todo));
      }
    }
  }

  predicate Verdict(w: WorkerPc) {
    w.Skipping? || w.SkipMarking? || w.Locking? || w.Notifying?
  }

  lemma MarkKeeps(s: State)
    requires s.worker.SkipMarking?
    ensures var t := StepEntry(s); t.main == s.main && t.done == s.done
    ensures var t := StepEntry(s); t.results == s.results || t.results == s.results[s.worker.a.id := NotRun]
  {
  }

  lemma NotifyKeeps(s: State)
    requires s.worker.Notifying?
    ensures var t := StepEntry(s); t.results == s.results && t.done == s.worker.noError
    ensures StepEntry(s).main == if s.main == Waiting(s.worker.a) then Notified(s.worker.a) else s.main
  {
  }

  lemma PollKeeps(s: State, id: GroupId, items: seq<Item>, ids: seq<GroupId>)
    ensures var t := StepPoll(s, id, items, ids); t.main == s.main && t.done == s.done && !Verdict(t.worker)
    ensures var t := StepPoll(s, id, items, ids); forall c :: c in t.results && t.results[c].NotRun? ==>
      c in s.results && s.results[c].NotRun?
  {
    if items != [] && items[0].Running? && items[0].cmd in s.pool {
      CollectKeeps(s, id, items[0].cmd, items[1..], ids);
    }
  }

  lemma CollectKeeps(s: State, id: GroupId, c: Cmd, items: seq<Item>, ids: seq<GroupId>)
    requires c in s.pool
    ensures var t := StepCollect(s, id, c, items, ids); t.main == s.main && t.done == s.done && !Verdict(t.worker)
    ensures var t := StepCollect(s, id, c, items, ids); forall d :: d in t.results && t.results[d].NotRun? ==>
      d in s.results && s.results[d].NotRun?
  {
  }

  /** The steps by which the worker counts or flags a group. */
  predicate Counts(w: WorkerPc) {
    w.Failing? || w.Counting?
  }

  lemma CountKeeps(s: State)
    requires Enabled(s, WorkerStep) && Counts(s.worker)
    ensures var t := StepWorker(s); t.results == s.results && t.main == s.main && t.done == s.done && !Verdict(t.worker)
  {
    if s.worker.Failing? {
      FailKeeps(s, SetOk(s.table, s.worker.id, false));
    } else {
      UncountKeeps(s, DecCount(s.table, s.worker.id));
    }
  }

  lemma FailKeeps(s: State, r: Attempt<Table>)
    requires Enabled(s, WorkerStep) && s.worker.Failing? && r == SetOk(s.table, s.worker.id, false)
    ensures StepWorker(s) ==
      if r.Raised? then Crash(s)
      else s.(table := r.value, worker := Counting(s.worker.id, s.worker.cmd, s.worker.items, s.worker.ids))
  {
  }

  lemma UncountKeeps(s: State, r: Attempt<Table>)
    requires Enabled(s, WorkerStep) && s.worker.Counting? && r == DecCount(s.table, s.worker.id)
    ensures StepWorker(s) ==
      if r.Raised? then Crash(s)
      else s.(table := r.value, settled := s.settled + {s.worker.cmd},
              worker := Poll(s.worker.id, s.worker.items, s.worker.ids))
  {
  }

  predicate Reads(w: WorkerPc) {
    w.Visit? || w.AftersHead? || w.Scan? || w.Sum? || w.Oks?
  }

  lemma NewSkips(s: State, c: Cmd)
    requires Enabled(s, WorkerStep)
    requires var t := StepWorker(s); c in t.results && t.results[c].NotRun?
    ensures (c in s.results && s.results[c].NotRun?) || (s.worker.SkipMarking? && c == s.worker.a.id)
  {
    if s.worker.Poll? {
      PollKeeps(s, s.worker.id, s.worker.items, s.worker.ids);
    } else if Counts(s.worker) {
      CountKeeps(s);
    } else if s.worker.SkipMarking? {
      MarkKeeps(s);
    } else if s.worker.Notifying? {
      NotifyKeeps(s);
    } else if !Reads(s.worker) {
      EntryKeeps(s);
    }
  }

  lemma EntryAwaits(s: State, k: Marks, a: After)
    requires Core(s, k) && Blocked(a) in Inside(s) && a.action.Todo?
    ensures a.id in s.reg && a == AfterOf(s.reg, a.id)
  {
    var i :| 0 <= i < |Inside(s)| && Inside(s)[i] == Blocked(a);
  }

  lemma FailedFlag(s: State)
    requires Inv(s) && s.worker.Failing?
    ensures var t := StepWorker(s); FailedIn(t.reg, t.results, [s.worker.id])
  {
    AtFailure(s);
    FailKeeps(s, SetOk(s.table, s.worker.id, false));
    assert Bad(s.results, s.worker.cmd) && s.reg[s.worker.cmd].group in [s.worker.id];
  }

  lemma AtFailure(s: State)
    requires WorkerOk(s) && s.worker.Failing?
    ensures Bad(s.results, s.worker.cmd) && s.worker.cmd in s.reg && s.reg[s.worker.cmd].group == s.worker.id
  {
  }

  lemma SkippedFlag(s: State, g: GroupId)
    requires Inv(s) && s.worker.SkipMarking? && s.worker.a.action == Todo(g) && g in s.table
    ensures var t := StepEntry(s); FailedIn(t.reg, t.results, [g])
  {
    EntryAwaits(s, MarksOf(s.worker), s.worker.a);
    var t := StepEntry(s);
    assert t.reg == s.reg && t.results == s.results[s.worker.a.id := NotRun];
    assert Bad(t.results, s.worker.a.id) && t.reg[s.worker.a.id].group in [g];
  }

  /** The command that a group is flagged for. */
  lemma FlaggedFor(s: State, g: GroupId)
    requires Inv(s) && Enabled(s, WorkerStep) && Flagging(s.worker, g) && g in s.table
    ensures var t := StepWorker(s); FailedIn(t.reg, t.results, [g])
  {
    if s.worker.Failing? {
      FailedFlag(s);
    } else {
      SkippedFlag(s, g);
    }
  }

  lemma WorkerKeepsFlags(s: State)
    requires Inv(s) && Fresh(s) && Founded(s) && Enabled(s, WorkerStep)
    ensures var t := StepWorker(s); FlagsFounded(t.table, t.reg, t.results)
  {
    var t := StepWorker(s);
    StepHistory(s, WorkerStep);
    WorkerFlags(s);
    forall g | g in t.table && !t.table[g].ok ensures FailedIn(t.reg, t.results, [g]) {
      if Flagging(s.worker, g) {
        FlaggedFor(s, g);
      } else {
        StillFailed(s, t, [g]);
      }
    }
  }

  lemma WorkerKeepsSkips(s: State)
    requires Inv(s) && Fresh(s) && Founded(s) && Enabled(s, WorkerStep)
    ensures var t := StepWorker(s); SkipsFounded(t.reg, t.results)
  {
    var t := StepWorker(s);
    StepHistory(s, WorkerStep);
    forall c | c in t.results && t.results[c].NotRun?
      ensures c in t.reg && FailedIn(t.reg, t.results, t.reg[c].awaits) {
      NewSkips(s, c);
      if s.worker.SkipMarking? && c == s.worker.a.id {
        EntryAwaits(s, MarksOf(s.worker), s.worker.a);
      }
      StillFailed(s, t, s.reg[c].awaits);
    }
  }

  /** Where the worker is next, when it does not read. */
  lemma NextPosition(s: State)
    requires Enabled(s, WorkerStep) && !Reads(s.worker)
    ensures var w := StepWorker(s).worker;
      || (s.worker.Skipping? && w == SkipMarking(s.worker.a, s.worker.todo))
      || (s.worker.Locking? && w == Notifying(s.worker.a, s.worker.noError, s.worker.todo))
      || w == s.worker || !Verdict(w)
  {
    if s.worker.Poll? {
      PollKeeps(s, s.worker.id, s.worker.items, s.worker.ids);
    } else if Counts(s.worker) {
      CountKeeps(s);
    } else {
      EntryNext(s);
    }
  }

  lemma WorkerKeepsVerdict(s: State)
    requires Inv(s) && Fresh(s) && Founded(s) && Enabled(s, WorkerStep)
    ensures var t := StepWorker(s); WorkerFounded(t.worker, t.reg, t.results)
  {
    var t := StepWorker(s);
    StepHistory(s, WorkerStep);
    if Reads(s.worker) {
      ReadingFounded(s);
    } else {
      NextPosition(s);
      VerdictStays(s, t);
    }
  }

  lemma WorkerKeepsMain(s: State)
    requires Inv(s) && Fresh(s) && Founded(s) && Enabled(s, WorkerStep)
    ensures var t := StepWorker(s); MainFounded(t.main, t.done, t.waitFor, t.reg, t.results)
  {
    var t := StepWorker(s);
    StepHistory(s, WorkerStep);
    WorkerEffects(s);
    NewVerdict(s);
    if t.main.Notified? && !t.done {
      StillFailed(s, t, t.main.entry.afters);
    }
    if t.main.Exited? {
      var d :| Bad(s.results, d);
      assert Bad(t.results, d);
    }
  }

  lemma NewVerdict(s: State)
    requires Inv(s) && Enabled(s, WorkerStep)
    ensures var t := StepWorker(s);
      (t.main == s.main && t.done == s.done) ||
      (s.worker.Notifying? && t.main == Notified(s.worker.a) && t.done == s.worker.noError)
  {
    if s.worker.Notifying? {
      AtNotice(s);
      NotifyKeeps(s);
    } else if s.worker.Poll? {
      PollKeeps(s, s.worker.id, s.worker.items, s.worker.ids);
    } else if Counts(s.worker) {
      CountKeeps(s);
    } else if s.worker.SkipMarking? {
      MarkKeeps(s);
    } else if !Reads(s.worker) {
      EntryKeeps(s);
    }
  }

  lemma AtNotice(s: State)
    requires WorkerOk(s) && s.worker.Notifying?
    ensures s.main == Waiting(s.worker.a)
  {
  }

  lemma WorkerKeepsFounded(s: State)
    requires Inv(s) && Fresh(s) && Founded(s) && Enabled(s, WorkerStep)
    ensures Founded(StepWorker(s))
  {
    WorkerKeepsFlags(s);
    WorkerKeepsVerdict(s);
    WorkerKeepsMain(s);
    WorkerKeepsSkips(s);
  }

  // ----- all steps -----

  /** A step that records nothing and leaves the flags keeps the reasons. */
  lemma FlagsStay(s: State, t: State)
    requires Later(s, t) && FlagsFounded(s.table, s.reg, s.results)
    requires forall g :: g in t.table && !t.table[g].ok ==> g in s.table && !s.table[g].ok
    ensures FlagsFounded(t.table, t.reg, t.results)
  {
    forall g | g in t.table && !t.table[g].ok ensures FailedIn(t.reg, t.results, [g]) {
      StillFailed(s, t, [g]);
    }
  }

  lemma SkipsStay(s: State, t: State)
    requires Later(s, t) && t.results == s.results && SkipsFounded(s.reg, s.results)
    ensures SkipsFounded(t.reg, t.results)
  {
    forall c | c in t.results && t.results[c].NotRun?
      ensures c in t.reg && FailedIn(t.reg, t.results, t.reg[c].awaits) {
      StillFailed(s, t, s.reg[c].awaits);
    }
  }

  lemma MainTable(s: State)
    requires Enabled(s, MainStep)
    ensures var t := StepMain(s); t.results == s.results && t.worker == s.worker
    ensures forall g :: g in StepMain(s).table && !StepMain(s).table[g].ok ==> g in s.table && !s.table[g].ok
  {
    if s.main.Launching? {
      AddFlags(s.table, s.main.group, Item.Running(s.main.cmd));
    } else if s.main.Blocking? {
      AddFlags(s.table, Internal, Blocked(s.main.after));
    } else if s.main.Acquired? {
      AddFlags(s.table, Internal, Blocked(After(s.next, s.main.args, Wake)));
    }
  }

  lemma AddFlags(t: Table, id: GroupId, item: Item)
    ensures forall g :: g in Add(t, id, item) && !Add(t, id, item)[g].ok ==> g in t && !t[g].ok
  {
  }

  lemma MainVerdict(s: State)
    requires Enabled(s, MainStep) && MainFounded(s.main, s.done, s.waitFor, s.reg, s.results)
    ensures var t := StepMain(s); MainFounded(t.main, t.done, t.waitFor, t.reg, t.results)
  {
    if s.main.Notified? && !s.done {
      var d :| Bad(s.results, d) && d in s.reg && s.reg[d].group in s.main.entry.afters;
    }
  }

  lemma MainKeepsFounded(s: State)
    requires Fresh(s) && Founded(s) && Enabled(s, MainStep)
    ensures Founded(StepMain(s))
  {
    var t := StepMain(s);
    MainEffects(s);
    MainTable(s);
    FlagsStay(s, t);
    SkipsStay(s, t);
    VerdictStays(s, t);
    MainVerdict(s);
  }

  /** A verdict keeps its reason, whatever the worker makes of it next. */
  lemma VerdictStays(s: State, t: State)
    requires Later(s, t) && WorkerFounded(s.worker, s.reg, s.results)
    requires
      || (s.worker.Skipping? && t.worker == SkipMarking(s.worker.a, s.worker.todo))
      || (s.worker.Locking? && t.worker == Notifying(s.worker.a, s.worker.noError, s.worker.todo))
      || t.worker == s.worker || !Verdict(t.worker)
    ensures WorkerFounded(t.worker, t.reg, t.results)
  {
    if Verdict(t.worker) && ((t.worker.Locking? || t.worker.Notifying?) ==> !t.worker.noError) {
      StillFailed(s, t, t.worker.a.afters);
    }
  }

  lemma OtherTable(s: State, e: Event)
    requires Enabled(s, e) && !e.MainStep? && !e.WorkerStep?
    ensures var t := Step(s, e); t.results == s.results && (t.worker == s.worker || t.worker.Visit?)
    ensures forall g :: g in Step(s, e).table && !Step(s, e).table[g].ok ==> g in s.table && !s.table[g].ok
  {
    if e.SkipRun? {
      EnsureFlags(s.table, e.group);
    } else if e.RunAfter? {
      EnsureFlags(s.table, e.group);
    }
  }

  lemma EnsureFlags(t: Table, id: GroupId)
    ensures forall g :: g in Ensure(t, id) && !Ensure(t, id)[g].ok ==> g in t && !t[g].ok
    ensures forall g :: g in IncCountForBlocked(t, id) && !IncCountForBlocked(t, id)[g].ok ==> g in t && !t[g].ok
  {
  }

  lemma OtherVerdict(s: State, e: Event)
    requires Enabled(s, e) && !e.MainStep? && !e.WorkerStep?
    requires MainFounded(s.main, s.done, s.waitFor, s.reg, s.results)
    ensures var t := Step(s, e); MainFounded(t.main, t.done, t.waitFor, t.reg, t.results)
  {
  }

  lemma OtherKeepsFounded(s: State, e: Event)
    requires Fresh(s) && Founded(s) && Enabled(s, e) && !e.MainStep? && !e.WorkerStep?
    ensures Founded(Step(s, e))
  {
    var t := Step(s, e);
    StepHistory(s, e);
    OtherTable(s, e);
    FlagsStay(s, t);
    SkipsStay(s, t);
    VerdictStays(s, t);
    OtherVerdict(s, e);
  }

  lemma {:induction false} RunFounded(states: seq<State>, events: seq<Event>, i: nat)
    requires IsRun(states, events) && i < |states|
    ensures Founded(states[i])
  {
    if i > 0 {
      var s, e := states[i - 1], events[i - 1];
      RunFounded(states, events, i - 1);
      RunKeepsInv(states, events, i - 1);
      InvFresh(s);
      if e.WorkerStep? {
        WorkerKeepsFounded(s);
      } else if e.MainStep? {
        MainKeepsFounded(s);
      } else {
        OtherKeepsFounded(s, e);
      }
    }
  }
}
