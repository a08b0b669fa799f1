/** The steps of the main thread and of the pool keep the invariant. */
module SchedulerMain {
  import opened Attempts
  import opened Groups
  import opened Scheduler
  import opened SchedulerInvariant

  // ----- what these steps leave to the worker -----

  ghost predicate Grows(s: State, t: State) {
    && t.worker == s.worker && t.settled == s.settled && t.results == s.results
    && s.table.Keys <= t.table.Keys && s.placed <= t.placed && s.pool.Keys <= t.pool.Keys
    && (forall item :: item in Inside(s) ==> item in Inside(t))
    && (forall c :: c in s.reg ==> c in t.reg && t.reg[c] == s.reg[c])
    && (forall c :: c in t.pool ==> c in s.pool || c >= s.next)
    && (t.waitFor == s.waitFor || Awaited(s.main).None?)
    && (s.main.Waiting? ==> t.main == s.main)
    && (Awaited(t.main) == Awaited(s.main) || Awaited(t.main).None? || Awaited(t.main).value.id >= s.next)
  }

  /** The needs of the worker's current entry, and the entry itself, are untouched. */
  lemma CurrentFrame(s: State, t: State, k: Marks, a: After)
    requires Core(s, k) && Grows(s, t) && Blocked(a) in Inside(s) && k.leaver.None?
    ensures NeedOf(t.reg, t.waitFor, a) == NeedOf(s.reg, s.waitFor, a)
    ensures forall c :: c in NeedOf(s.reg, s.waitFor, a) ==> c in s.reg
    ensures a.action.Wake? ==> t.waitFor == s.waitFor
  {
    var i :| 0 <= i < |Inside(s)| && Inside(s)[i] == Blocked(a);
  }

  lemma ScanFrame(s: State, t: State)
    requires Core(s, NO_MARKS) && WorkerOk(s) && Grows(s, t)
    requires s.worker.Sum? || s.worker.Oks?
    ensures WorkerOk(t)
  {
    CurrentFrame(s, t, NO_MARKS, s.worker.a);
  }

  lemma ReadyFrame(s: State, t: State)
    requires Inv(s) && Grows(s, t)
    requires s.worker.Starting? || s.worker.Locking? || s.worker.Notifying?
    ensures WorkerOk(t)
  {
    CurrentFrame(s, t, MarksOf(s.worker), s.worker.a);
  }

  lemma CollectFrame(s: State, t: State)
    requires WorkerOk(s) && Grows(s, t)
    requires s.worker.Visit? || s.worker.Poll? || s.worker.Failing? || s.worker.Counting?
    ensures WorkerOk(t)
  {
  }

  lemma ActFrame(s: State, t: State)
    requires WorkerOk(s) && Grows(s, t) && Core(s, MarksOf(s.worker))
    requires s.worker.Dispatching? || s.worker.Skipping? || s.worker.SkipMarking? || s.worker.SkipCounting?
    ensures WorkerOk(t)
  {
    var i :| 0 <= i < |Inside(s)| && Inside(s)[i] == Blocked(s.worker.a);
  }

  lemma WorkerFrame(s: State, t: State)
    requires Inv(s) && Grows(s, t)
    ensures WorkerOk(t)
  {
    var w := s.worker;
    if w.Sum? || w.Oks? {
      ScanFrame(s, t);
    } else if w.Starting? || w.Locking? || w.Notifying? {
      ReadyFrame(s, t);
    } else if w.Visit? || w.Poll? || w.Failing? || w.Counting? {
      CollectFrame(s, t);
    } else if w.Dispatching? || w.Skipping? || w.SkipMarking? || w.SkipCounting? {
      ActFrame(s, t);
    }
  }

  /** What is kept of the shared state and what the worker relies on make up the invariant. */
  lemma Kept(s: State, t: State)
    requires Inv(s) && Grows(s, t) && Core(t, MarksOf(s.worker))
    ensures Inv(t)
  {
    WorkerFrame(s, t);
  }

  lemma Whole(s: State, k: Marks)
    requires Tables(s.table, s.reg, s.placed, s.settled, s.next, s.main, s.waitFor, k)
    requires Results(s.table, s.pool, s.results, s.depsSaved, s.reg, s.placed, s.settled, s.next, Launched(s.main), k)
    requires MainOk(s.main, s.table.Keys, s.results, s.done, s.waitFor) && LockOk(s.lock, s.main, k.notifying)
    ensures Core(s, k)
  {
  }

  // ----- the pool -----

  lemma PoolEndResults(t: Table, pool: map<Cmd, Task>, results: map<Cmd, Outcome>, depsSaved: set<Cmd>, reg: Regs,
                       placed: set<Cmd>, settled: set<Cmd>, next: nat, launched: Option<(GroupId, Cmd)>, k: Marks,
                       c: Cmd, end: Task)
    requires Results(t, pool, results, depsSaved, reg, placed, settled, next, launched, k)
    requires c in pool && pool[c].Active?
    ensures Results(t, pool[c := end], results, depsSaved, reg, placed, settled, next, launched, k)
  {
    assert pool[c := end].Keys == pool.Keys;
    assert ResultsOk(results, placed, depsSaved, pool[c := end], k.skipped);
  }

  lemma PoolEndInv(s: State, c: Cmd, ok: bool)
    requires Inv(s) && Enabled(s, PoolEnd(c, ok))
    ensures Inv(Step(s, PoolEnd(c, ok)))
  {
    PoolEndResults(s.table, s.pool, s.results, s.depsSaved, s.reg, s.placed, s.settled, s.next, Launched(s.main),
                   MarksOf(s.worker), c, if ok then Succeeded else Errored);
    WorkerFrame(s, Step(s, PoolEnd(c, ok)));
  }

  // ----- an up-to-date command only makes sure its group exists -----

  lemma NewGroupEmpty(t: Table, reg: Regs, placed: set<Cmd>, settled: set<Cmd>, next: nat, g: GroupId)
    requires g !in t && RegsOk(t.Keys, reg, next)
    ensures Open(reg, settled, g) == {} && Unplaced(reg, placed, g) == {}
  {
  }

  lemma EnsureTables(t: Table, reg: Regs, placed: set<Cmd>, settled: set<Cmd>, next: nat, m: MainPc, waitFor: set<Cmd>,
                     k: Marks, g: GroupId)
    requires Tables(t, reg, placed, settled, next, m, waitFor, k) && g.User?
    ensures Tables(Ensure(t, g), reg, placed, settled, next, m, waitFor, k)
    ensures g in Ensure(t, g) && forall h :: h in t ==> h in Ensure(t, g) && Ensure(t, g)[h] == t[h]
  {
    if g !in t {
      NewGroupEmpty(t, reg, placed, settled, next, g);
      assert RollsOf(Ensure(t, g)) == RollsOf(t)[g := []];
    }
  }

  lemma EnsureCore(s: State, k: Marks, g: GroupId)
    requires Core(s, k) && g.User?
    ensures Core(s.(table := Ensure(s.table, g)), k)
    ensures g in Ensure(s.table, g)
  {
    EnsureTables(s.table, s.reg, s.placed, s.settled, s.next, s.main, s.waitFor, k, g);
  }

  lemma SkipRunInv(s: State, g: GroupId)
    requires Inv(s) && Enabled(s, SkipRun(g))
    ensures Inv(Step(s, SkipRun(g)))
  {
    EnsureCore(s, MarksOf(s.worker), g);
    WorkerFrame(s, s.(table := Ensure(s.table, g)));
  }

  // ----- handing a command to the pool -----

  lemma RunResults(t: Table, pool: map<Cmd, Task>, results: map<Cmd, Outcome>, depsSaved: set<Cmd>, reg: Regs,
                   placed: set<Cmd>, settled: set<Cmd>, next: nat, k: Marks, g: GroupId)
    requires Results(t, pool, results, depsSaved, reg, placed, settled, next, None, k)
    requires next !in reg && next !in placed
    ensures Results(t, pool[next := Active], results, depsSaved, reg, placed, settled, next + 1, Some((g, next)), k)
  {
    assert pool[next := Active].Keys == pool.Keys + {next};
    assert ResultsOk(results, placed, depsSaved, pool[next := Active], k.skipped);
  }

  lemma LaterTables(t: Table, reg: Regs, placed: set<Cmd>, settled: set<Cmd>, next: nat, m: MainPc, m': MainPc,
                    waitFor: set<Cmd>, k: Marks)
    requires Tables(t, reg, placed, settled, next, m, waitFor, k)
    requires Awaited(m') == Awaited(m) && BeingBlocked(m') == BeingBlocked(m)
    requires Launched(m').None? || (m'.cmd == next && m'.group.User?)
    ensures Tables(t, reg, placed, settled, next + 1, m', waitFor, k)
    ensures next !in reg && next !in placed
  {
  }

  lemma RunCore(s: State, k: Marks, g: GroupId)
    requires Core(s, k) && s.main.Idle? && g.User?
    ensures Core(s.(pool := s.pool[s.next := Active], main := Launching(g, s.next), next := s.next + 1), k)
  {
    LaterTables(s.table, s.reg, s.placed, s.settled, s.next, s.main, Launching(g, s.next), s.waitFor, k);
    RunResults(s.table, s.pool, s.results, s.depsSaved, s.reg, s.placed, s.settled, s.next, k, g);
    Whole(s.(pool := s.pool[s.next := Active], main := Launching(g, s.next), next := s.next + 1), k);
  }

  lemma RunGrows(s: State, g: GroupId)
    requires Enabled(s, Run(g))
    ensures var t := s.(pool := s.pool[s.next := Active], main := Launching(g, s.next), next := s.next + 1);
      Step(s, Run(g)) == t && Grows(s, t)
  {
  }

  lemma RunInv(s: State, g: GroupId)
    requires Inv(s) && Enabled(s, Run(g))
    ensures Inv(Step(s, Run(g)))
  {
    RunCore(s, MarksOf(s.worker), g);
    RunGrows(s, g);
    Kept(s, s.(pool := s.pool[s.next := Active], main := Launching(g, s.next), next := s.next + 1));
  }

  // ----- registering one more command -----

  lemma GrowRolls(rolls: Rolls, reg: Regs, placed: set<Cmd>, c: Cmd, r: Registration)
    requires c !in reg && UserRolls(rolls, reg, placed) && PlacedOk(rolls, reg, placed)
    ensures UserRolls(rolls, reg[c := r], placed) && PlacedOk(rolls, reg[c := r], placed)
  {
  }

  ghost predicate Registrable(groups: set<GroupId>, reg: Regs, c: Cmd, r: Registration) {
    && r.group.User? && r.group in groups && AllUser(r.awaits) && Known(groups, r.awaits)
    && forall d :: d in r.need ==> (d in reg && reg[d].group in r.awaits) || (d == c && r.group in r.awaits)
  }

  lemma GrowRegs(groups: set<GroupId>, reg: Regs, next: nat, next': nat, c: Cmd, r: Registration)
    requires c !in reg && RegsOk(groups, reg, next) && c < next' && next <= next' && Registrable(groups, reg, c, r)
    ensures RegsOk(groups, reg[c := r], next')
  {
  }

  lemma GrowEntries(inside: seq<Item>, reg: Regs, placed: set<Cmd>, next: nat, waiter: Option<After>,
                    leaver: Option<After>, c: Cmd, r: Registration)
    requires c == next && c !in reg && EntriesOk(inside, reg, placed, next, waiter, leaver)
    ensures EntriesOk(inside, reg[c := r], placed, next + 1, waiter, leaver)
  {
  }

  lemma GrowBlocked(inside: seq<Item>, reg: Regs, placed: set<Cmd>, next: nat, waiter: Option<After>,
                    leaver: Option<After>, c: Cmd, r: Registration)
    requires c == next && c !in reg && c !in placed && r.group.User?
    requires EntriesOk(inside, reg, placed, next, waiter, leaver) && BlockedOk(inside, reg, placed, None)
    ensures BlockedOk(inside, reg[c := r], placed, Some(After(c, r.awaits, Todo(r.group))))
  {
  }

  // Counting a command not yet placed.
  /** Registering a command in a group adds it to that group's sets, unless it counts as settled
      or placed at once, and leaves the sets of the others. */
  lemma Registers(reg: Regs, done: set<Cmd>, c: Cmd, r: Registration, g: GroupId)
    requires c !in reg && c !in done
    ensures Open(reg[c := r], done, g) == Open(reg, done, g) + if r.group == g then {c} else {}
    ensures Unplaced(reg[c := r], done, g) == Unplaced(reg, done, g) + if r.group == g then {c} else {}
    ensures Unplaced(reg[c := r], done + {c}, g) == Unplaced(reg, done, g)
    ensures c !in Open(reg, done, g) && c !in Unplaced(reg, done, g)
  {
    var more := reg[c := r];
    assert forall d :: d in reg ==> d in more && more[d] == reg[d];
  }

  lemma BlockCounts(t: Table, reg: Regs, placed: set<Cmd>, settled: set<Cmd>, g: GroupId, c: Cmd, r: Registration,
                    extra: int)
    requires g.User? && g in t && c !in reg && c !in placed && c !in settled && r.group == g
    requires Counts(t, reg, placed, settled, extra)
    ensures Counts(t[g := Bumped(t[g])], reg[c := r], placed, settled, extra)
  {
    forall h | h in t && h.User?
      ensures Open(reg[c := r], settled, h) == Open(reg, settled, h) + (if h == g then {c} else {})
      ensures Unplaced(reg[c := r], placed, h) == Unplaced(reg, placed, h) + (if h == g then {c} else {})
    {
      Registers(reg, settled, c, r, h);
      Registers(reg, placed, c, r, h);
    }
  }

  /** What `IncCountForBlocked` does to an existing entry. */
  function Bumped(v: Value): Value {
    v.(count := v.count + 1, countInFalse := v.countInFalse + 1)
  }

  lemma BlockTables(t: Table, reg: Regs, placed: set<Cmd>, settled: set<Cmd>, next: nat, waitFor: set<Cmd>, k: Marks,
                    g: GroupId, r: Registration)
    requires Tables(t, reg, placed, settled, next, Idle, waitFor, k)
    requires g in t && next !in placed && next !in settled && r.group == g && Registrable(t.Keys, reg, next, r)
    ensures Tables(t[g := Bumped(t[g])], reg[next := r], placed, settled, next + 1,
                   Blocking(After(next, r.awaits, Todo(g))), waitFor, k)
    ensures t[g := Bumped(t[g])].Keys == t.Keys
  {
    var inside, u := t[Internal].items, t[g := Bumped(t[g])];
    BlockCounts(t, reg, placed, settled, g, next, r, k.extra);
    GrowRolls(RollsOf(t), reg, placed, next, r);
    GrowRegs(t.Keys, reg, next, next + 1, next, r);
    GrowEntries(inside, reg, placed, next, None, k.leaver, next, r);
    GrowBlocked(inside, reg, placed, next, None, k.leaver, next, r);
    assert RollsOf(u) == RollsOf(t);
    assert u.Keys == t.Keys;
  }

  lemma BlockResults(t: Table, pool: map<Cmd, Task>, results: map<Cmd, Outcome>, depsSaved: set<Cmd>, reg: Regs,
                     placed: set<Cmd>, settled: set<Cmd>, next: nat, k: Marks, g: GroupId, r: Registration)
    requires Results(t, pool, results, depsSaved, reg, placed, settled, next, None, k)
    requires g in t && next !in placed
    ensures Results(t[g := Bumped(t[g])], pool, results, depsSaved, reg[next := r], placed, settled, next + 1, None, k)
  {
  }

  /** A command counted in its group and about to join the internal one. */
  function Registered(s: State, g: GroupId, r: Registration): State
    requires g in s.table
  {
    s.(table := s.table[g := Bumped(s.table[g])], reg := s.reg[s.next := r],
       main := Blocking(After(s.next, r.awaits, Todo(g))), next := s.next + 1)
  }

  lemma RunAfterCore(s: State, k: Marks, g: GroupId, r: Registration)
    requires Core(s, k) && s.main.Idle? && g in s.table && r.group == g && Registrable(s.table.Keys, s.reg, s.next, r)
    ensures Core(Registered(s, g, r), k)
  {
    assert s.next !in s.placed && s.next !in s.settled;
    BlockTables(s.table, s.reg, s.placed, s.settled, s.next, s.waitFor, k, g, r);
    BlockResults(s.table, s.pool, s.results, s.depsSaved, s.reg, s.placed, s.settled, s.next, k, g, r);
    Whole(Registered(s, g, r), k);
  }

  lemma RunAfterShape(s: State, g: GroupId, afters: seq<GroupId>)
    requires Enabled(s, RunAfter(g, afters))
    ensures var u, r := s.(table := Ensure(s.table, g)),
      Registration(g, afters, CountedIn(s, afters) + if g in afters then {s.next} else {});
      && Registrable(u.table.Keys, s.reg, s.next, r)
      && Step(s, RunAfter(g, afters)) == Registered(u, g, r)
  {
  }

  lemma RunAfterGrows(s: State, g: GroupId, r: Registration)
    requires s.main.Idle? && g.User? && s.next !in s.reg && Internal in s.table
    ensures Grows(s, Registered(s.(table := Ensure(s.table, g)), g, r))
  {
  }

  lemma NextIsNew(s: State, k: Marks)
    requires Core(s, k)
    ensures s.next !in s.reg && Internal in s.table
  {
  }

  lemma RunAfterInv(s: State, g: GroupId, afters: seq<GroupId>)
    requires Inv(s) && Enabled(s, RunAfter(g, afters))
    ensures Inv(Step(s, RunAfter(g, afters)))
  {
    var u, r := s.(table := Ensure(s.table, g)),
      Registration(g, afters, CountedIn(s, afters) + if g in afters then {s.next} else {});
    NextIsNew(s, MarksOf(s.worker));
    RunAfterShape(s, g, afters);
    RunAfterGrows(s, g, r);
    EnsureCore(s, MarksOf(s.worker), g);
    RunAfterCore(u, MarksOf(s.worker), g, r);
    Kept(s, Registered(u, g, r));
  }

  // ----- what the main thread began -----

  lemma AwaitCore(s: State, k: Marks, args: seq<GroupId>)
    requires Core(s, k) && s.main.Idle? && Known(s.table.Keys, args) && Once(args) && (s.lock.ByWorker? ==> k.notifying)
    ensures !k.notifying ==> Core(s.(main := Acquired(args), lock := ByMain), k)
  {
  }

  lemma AwaitInv(s: State, args: seq<GroupId>)
    requires Inv(s) && Enabled(s, Await(args))
    ensures Inv(Step(s, Await(args)))
  {
    NotNotifying(s);
    AwaitCore(s, MarksOf(s.worker), args);
    Kept(s, s.(main := Acquired(args), lock := ByMain));
  }

  lemma NotNotifying(s: State)
    requires WorkerOk(s) && s.main.Idle?
    ensures !MarksOf(s.worker).notifying
  {
  }

  lemma LaunchCounts(t: Table, reg: Regs, placed: set<Cmd>, settled: set<Cmd>, g: GroupId, c: Cmd, r: Registration,
                     extra: int, v: Value)
    requires g.User? && g in t && c !in reg && c !in placed && c !in settled && r.group == g
    requires Counts(t, reg, placed, settled, extra) && v.count == t[g].count + 1 && v.countInFalse == t[g].countInFalse
    ensures Counts(t[g := v], reg[c := r], placed + {c}, settled, extra)
  {
    forall h | h in t && h.User?
      ensures Open(reg[c := r], settled, h) == Open(reg, settled, h) + (if h == g then {c} else {})
      ensures Unplaced(reg[c := r], placed + {c}, h) == Unplaced(reg, placed, h)
    {
      Registers(reg, settled, c, r, h);
      Registers(reg, placed, c, r, h);
    }
  }

  lemma LaunchRolls(rolls: Rolls, reg: Regs, placed: set<Cmd>, g: GroupId, c: Cmd, r: Registration)
    requires g in rolls && c !in reg && c !in placed && r.group == g
    requires UserRolls(rolls, reg, placed) && PlacedOk(rolls, reg, placed)
    ensures UserRolls(rolls[g := rolls[g] + [Item.Running(c)]], reg[c := r], placed + {c})
    ensures PlacedOk(rolls[g := rolls[g] + [Item.Running(c)]], reg[c := r], placed + {c})
  {
    var items := rolls[g] + [Item.Running(c)];
    assert items[|rolls[g]|] == Item.Running(c);
    forall d | d in placed && reg[d].group == g ensures Item.Running(d) in items {
      var i :| 0 <= i < |rolls[g]| && rolls[g][i] == Item.Running(d);
      assert items[i] == Item.Running(d);
    }
  }

  lemma LaunchEntries(inside: seq<Item>, reg: Regs, placed: set<Cmd>, next: nat, waiter: Option<After>,
                      leaver: Option<After>, c: Cmd, r: Registration)
    requires c !in reg && c !in placed
    requires EntriesOk(inside, reg, placed, next, waiter, leaver) && BlockedOk(inside, reg, placed, None)
    requires forall i :: 0 <= i < |inside| ==> inside[i].after.id != c
    ensures EntriesOk(inside, reg[c := r], placed + {c}, next, waiter, leaver)
    ensures BlockedOk(inside, reg[c := r], placed + {c}, None)
  {
  }

  /** What `Add` does to an existing entry. */
  function Listed(v: Value, item: Item): Value {
    v.(items := v.items + [item], count := v.count + 1)
  }

  lemma LaunchTables(t: Table, reg: Regs, placed: set<Cmd>, settled: set<Cmd>, next: nat, waitFor: set<Cmd>, k: Marks,
                     g: GroupId, c: Cmd, r: Registration)
    requires Tables(t, reg, placed, settled, next, Launching(g, c), waitFor, k)
    requires g in t && c !in settled && r == Registration(g, [], {})
    ensures Tables(t[g := Listed(t[g], Item.Running(c))], reg[c := r], placed + {c}, settled, next, Idle, waitFor, k)
    ensures t[g := Listed(t[g], Item.Running(c))].Keys == t.Keys
  {
    var inside, v := t[Internal].items, Listed(t[g], Item.Running(c));
    LaunchCounts(t, reg, placed, settled, g, c, r, k.extra, v);
    LaunchRolls(RollsOf(t), reg, placed, g, c, r);
    GrowRegs(t.Keys, reg, next, next, c, r);
    LaunchEntries(inside, reg, placed, next, None, k.leaver, c, r);
    assert RollsOf(t[g := v]) == RollsOf(t)[g := v.items];
    assert t[g := v].Keys == t.Keys;
  }

  lemma LaunchResults(t: Table, pool: map<Cmd, Task>, results: map<Cmd, Outcome>, depsSaved: set<Cmd>, reg: Regs,
                      placed: set<Cmd>, settled: set<Cmd>, next: nat, k: Marks, g: GroupId, c: Cmd, r: Registration)
    requires Results(t, pool, results, depsSaved, reg, placed, settled, next, Some((g, c)), k)
    requires g in t && c !in reg && c !in placed && r == Registration(g, [], {})
    ensures Results(t[g := Listed(t[g], Item.Running(c))], pool, results, depsSaved, reg[c := r], placed + {c}, settled,
                    next, None, k)
  {
  }

  lemma LaunchCore(s: State, k: Marks, g: GroupId, c: Cmd, r: Registration)
    requires Core(s, k) && s.main == Launching(g, c) && g in s.table && r == Registration(g, [], {})
    ensures Core(s.(table := s.table[g := Listed(s.table[g], Item.Running(c))], reg := s.reg[c := r],
                    placed := s.placed + {c}, main := Idle), k)
  {
    assert c !in s.settled;
    LaunchTables(s.table, s.reg, s.placed, s.settled, s.next, s.waitFor, k, g, c, r);
    LaunchResults(s.table, s.pool, s.results, s.depsSaved, s.reg, s.placed, s.settled, s.next, k, g, c, r);
    Whole(s.(table := s.table[g := Listed(s.table[g], Item.Running(c))], reg := s.reg[c := r], placed := s.placed + {c},
             main := Idle), k);
  }

  lemma LaunchGrows(s: State, g: GroupId, c: Cmd)
    requires s.main == Launching(g, c) && c !in s.reg && Internal in s.table && g.User?
    ensures var t, r := StepMain(s), Registration(g, [], {});
      && Grows(s, t)
      && t == s.(table := Ensure(s.table, g)[g := Listed(Ensure(s.table, g)[g], Item.Running(c))], reg := s.reg[c := r],
                 placed := s.placed + {c}, main := Idle)
  {
  }

  lemma LaunchInv(s: State, g: GroupId, c: Cmd)
    requires Inv(s) && s.main == Launching(g, c)
    ensures Inv(StepMain(s))
  {
    EnsureCore(s, MarksOf(s.worker), g);
    LaunchCore(s.(table := Ensure(s.table, g)), MarksOf(s.worker), g, c, Registration(g, [], {}));
    LaunchGrows(s, g, c);
    Kept(s, s.(table := Ensure(s.table, g)[g := Listed(Ensure(s.table, g)[g], Item.Running(c))],
               reg := s.reg[c := Registration(g, [], {})], placed := s.placed + {c}, main := Idle));
  }

  // Adding a waiting entry to the internal group.

  lemma Appended(inside: seq<Item>, item: Item)
    ensures item in inside + [item] && forall other :: other in inside ==> other in inside + [item]
  {
    assert (inside + [item])[|inside|] == item;
    forall other | other in inside ensures other in inside + [item] {
      var i :| 0 <= i < |inside| && inside[i] == other;
      assert (inside + [item])[i] == other;
    }
  }

  lemma EnlistRolls(t: Table, reg: Regs, placed: set<Cmd>, settled: set<Cmd>, extra: int, item: Item)
    requires Internal in t && UserRolls(RollsOf(t), reg, placed) && PlacedOk(RollsOf(t), reg, placed) &&
      Counts(t, reg, placed, settled, extra)
    requires forall c :: c in reg ==> reg[c].group.User?
    ensures var u := t[Internal := Listed(t[Internal], item)];
      && UserRolls(RollsOf(u), reg, placed) && PlacedOk(RollsOf(u), reg, placed) &&
           Counts(u, reg, placed, settled, extra)
      && u.Keys == t.Keys
  {
    var u := t[Internal := Listed(t[Internal], item)];
    assert RollsOf(u) == RollsOf(t)[Internal := t[Internal].items + [item]];
    assert u.Keys == t.Keys;
  }

  lemma BlockingTables(t: Table, reg: Regs, placed: set<Cmd>, settled: set<Cmd>, next: nat, waitFor: set<Cmd>, k: Marks,
                       a: After)
    requires Tables(t, reg, placed, settled, next, Blocking(a), waitFor, k)
    ensures Tables(t[Internal := Listed(t[Internal], Blocked(a))], reg, placed, settled, next, Idle, waitFor, k)
    ensures t[Internal := Listed(t[Internal], Blocked(a))].Keys == t.Keys
  {
    EnlistRolls(t, reg, placed, settled, k.extra, Blocked(a));
    BlockingEntries(t[Internal].items, reg, placed, next, k.leaver, a);
  }

  lemma BlockingEntries(inside: seq<Item>, reg: Regs, placed: set<Cmd>, next: nat, leaver: Option<After>, a: After)
    requires EntriesOk(inside, reg, placed, next, None, leaver) && BlockedOk(inside, reg, placed, Some(a))
    requires forall c :: c in reg ==> c < next
    ensures EntriesOk(inside + [Blocked(a)], reg, placed, next, None, leaver)
    ensures BlockedOk(inside + [Blocked(a)], reg, placed, None)
  {
    Appended(inside, Blocked(a));
  }

  lemma AwaitTables(t: Table, reg: Regs, placed: set<Cmd>, settled: set<Cmd>, next: nat, args: seq<GroupId>,
                    waitFor: set<Cmd>, waitFor': set<Cmd>, k: Marks, a: After)
    requires Tables(t, reg, placed, settled, next, Acquired(args), waitFor, k) && a == After(next, args, Wake)
    requires Known(t.Keys, args) && Once(args) && forall c :: c in waitFor' ==> c in reg && reg[c].group in args
    ensures Tables(t[Internal := Listed(t[Internal], Blocked(a))], reg, placed, settled, next + 1, Enlisted(a),
                   waitFor', k)
    ensures t[Internal := Listed(t[Internal], Blocked(a))].Keys == t.Keys
  {
    EnlistRolls(t, reg, placed, settled, k.extra, Blocked(a));
    AwaitEntries(t[Internal].items, reg, placed, next, k.leaver, a);
    AwaitWaiter(t[Internal].items, t.Keys, reg, waitFor', a);
    assert RegsOk(t.Keys, reg, next + 1);
  }

  lemma AwaitWaiter(inside: seq<Item>, groups: set<GroupId>, reg: Regs, waitFor: set<Cmd>, a: After)
    requires a.action.Wake? && Known(groups, a.afters) && Once(a.afters)
    requires forall c :: c in waitFor ==> c in reg && reg[c].group in a.afters
    ensures WaiterOk(Some(a), inside + [Blocked(a)], groups, reg, waitFor)
  {
    Appended(inside, Blocked(a));
  }

  lemma AwaitEntries(inside: seq<Item>, reg: Regs, placed: set<Cmd>, next: nat, leaver: Option<After>, a: After)
    requires EntriesOk(inside, reg, placed, next, None, leaver) && BlockedOk(inside, reg, placed, None)
    requires a.action.Wake? && a.id == next && forall c :: c in reg ==> c < next
    ensures EntriesOk(inside + [Blocked(a)], reg, placed, next + 1, Some(a), leaver)
    ensures BlockedOk(inside + [Blocked(a)], reg, placed, None)
    ensures Blocked(a) in inside + [Blocked(a)]
  {
    Appended(inside, Blocked(a));
  }

  lemma EnlistResults(t: Table, pool: map<Cmd, Task>, results: map<Cmd, Outcome>, depsSaved: set<Cmd>, reg: Regs,
                      placed: set<Cmd>, settled: set<Cmd>, next: nat, next': nat, k: Marks, item: Item)
    requires Results(t, pool, results, depsSaved, reg, placed, settled, next, None, k) && Internal in t && next <= next'
    requires forall c :: c in reg ==> reg[c].group.User?
    ensures Results(t[Internal := Listed(t[Internal], item)], pool, results, depsSaved, reg, placed, settled, next',
                    None, k)
  {
  }

  lemma BlockingCore(s: State, k: Marks, a: After)
    requires Core(s, k) && s.main == Blocking(a)
    ensures Core(s.(table := s.table[Internal := Listed(s.table[Internal], Blocked(a))], main := Idle), k)
  {
    BlockingTables(s.table, s.reg, s.placed, s.settled, s.next, s.waitFor, k, a);
    EnlistResults(s.table, s.pool, s.results, s.depsSaved, s.reg, s.placed, s.settled, s.next, s.next, k, Blocked(a));
    Whole(s.(table := s.table[Internal := Listed(s.table[Internal], Blocked(a))], main := Idle), k);
  }

  lemma BlockingInv(s: State, a: After)
    requires Inv(s) && s.main == Blocking(a)
    ensures Inv(StepMain(s))
  {
    BlockingCore(s, MarksOf(s.worker), a);
    EnlistGrows(s, a);
    Kept(s, s.(table := s.table[Internal := Listed(s.table[Internal], Blocked(a))], main := Idle));
  }

  lemma EnlistGrows(s: State, a: After)
    requires Internal in s.table
    requires s.main == Blocking(a) || (s.main.Acquired? && a == After(s.next, s.main.args, Wake))
    ensures Grows(s, StepMain(s))
    ensures var t := s.table[Internal := Listed(s.table[Internal], Blocked(a))];
      StepMain(s) == if s.main.Blocking? then s.(table := t, main := Idle)
                     else s.(table := t, main := Enlisted(a), next := s.next + 1, done := false,
                             waitFor := CountedIn(s, s.main.args))
  {
    Appended(s.table[Internal].items, Blocked(a));
  }

  lemma AcquiredCore(s: State, k: Marks, args: seq<GroupId>, a: After, waitFor: set<Cmd>)
    requires Core(s, k) && s.main == Acquired(args) && a == After(s.next, args, Wake)
    requires forall c :: c in waitFor ==> c in s.reg && s.reg[c].group in args
    ensures Core(s.(table := s.table[Internal := Listed(s.table[Internal], Blocked(a))], main := Enlisted(a),
                    next := s.next + 1,
                    done := false, waitFor := waitFor), k)
  {
    AwaitTables(s.table, s.reg, s.placed, s.settled, s.next, args, s.waitFor, waitFor, k, a);
    EnlistResults(s.table, s.pool, s.results, s.depsSaved, s.reg, s.placed, s.settled, s.next, s.next + 1, k,
                  Blocked(a));
    Whole(s.(table := s.table[Internal := Listed(s.table[Internal], Blocked(a))], main := Enlisted(a),
             next := s.next + 1,
             done := false, waitFor := waitFor), k);
  }

  lemma AcquiredInv(s: State, args: seq<GroupId>)
    requires Inv(s) && s.main == Acquired(args)
    ensures Inv(StepMain(s))
  {
    var a := After(s.next, args, Wake);
    AcquiredCore(s, MarksOf(s.worker), args, a, CountedIn(s, args));
    EnlistGrows(s, a);
    Kept(s, s.(table := s.table[Internal := Listed(s.table[Internal], Blocked(a))], main := Enlisted(a),
               next := s.next + 1,
               done := false, waitFor := CountedIn(s, args)));
  }

  lemma MovedTables(t: Table, reg: Regs, placed: set<Cmd>, settled: set<Cmd>, next: nat, m: MainPc, m': MainPc,
                    waitFor: set<Cmd>, k: Marks)
    requires Tables(t, reg, placed, settled, next, m, waitFor, k)
    requires (m.Enlisted? && m' == Waiting(m.entry)) || (m.Notified? && (m'.Idle? || m'.Exited?))
    ensures Tables(t, reg, placed, settled, next, m', waitFor, k)
  {
  }

  lemma EnlistedInv(s: State, a: After)
    requires Inv(s) && s.main == Enlisted(a)
    ensures Inv(StepMain(s))
  {
    MovedTables(s.table, s.reg, s.placed, s.settled, s.next, s.main, Waiting(a), s.waitFor, MarksOf(s.worker));
    WorkerFrame(s, s.(main := Waiting(a), lock := Free));
  }

  lemma NotifiedInv(s: State, a: After)
    requires Inv(s) && s.main == Notified(a) && s.lock.Free?
    ensures Inv(StepMain(s))
  {
    var m := if s.done then Idle else Exited;
    MovedTables(s.table, s.reg, s.placed, s.settled, s.next, s.main, m, s.waitFor, MarksOf(s.worker));
    WorkerFrame(s, s.(main := m));
  }

  lemma MainStepInv(s: State)
    requires Inv(s) && Enabled(s, MainStep)
    ensures Inv(Step(s, MainStep))
  {
    match s.main
    case Launching(g, c) => LaunchInv(s, g, c);
    case Blocking(a) => BlockingInv(s, a);
    case Acquired(args) => AcquiredInv(s, args);
    case Enlisted(a) => EnlistedInv(s, a);
    case Notified(a) => NotifiedInv(s, a);
  }
}
