/** When waiting is acyclic and pool tasks end, the parallel builder never gets stuck: as
    long as something is pending some step is enabled, and a well-founded measure over the
    unfinished and blocked work decreases. */
module SchedulerProgress {
  import opened Groups
  import opened Scheduler
  import opened SchedulerInvariant
  import opened SchedulerWorker
  import opened SchedulerSteps

  // ----- the work left -----


  function Unstarted(reg: Regs, pool: map<Cmd, Task>, results: map<Cmd, Outcome>): set<Cmd> {
    set c | c in reg.Keys + pool.Keys && c !in pool && c !in results
  }

  function Unended(reg: Regs, pool: map<Cmd, Task>, results: map<Cmd, Outcome>): set<Cmd> {
    set c | c in reg.Keys + pool.Keys && !(c in pool && !pool[c].Active?) && c !in results
  }

  function Unrecorded(reg: Regs, pool: map<Cmd, Task>, results: map<Cmd, Outcome>): set<Cmd> {
    set c | c in reg.Keys + pool.Keys && c !in results
  }

  function EntriesLeft(s: State): nat {
    |Inside(s)| + if s.main.Blocking? || s.main.Acquired? then 1 else 0
  }

  /** Tasks to start, to end and to record, and entries to take out. */
  function Work(s: State): nat {
    |Unstarted(s.reg, s.pool, s.results)| + |Unended(s.reg, s.pool, s.results)| +
      |Unrecorded(s.reg, s.pool, s.results)| + EntriesLeft(s)
  }

  function MainRank(m: MainPc): nat {
    match m
    case Acquired(_) => 4
    case Enlisted(_) => 3
    case Waiting(_) => 2
    case Notified(_) => 1
    case Launching(_, _) => 1
    case Blocking(_) => 1
    case _ => 0
  }

  // ----- steps left in the worker's pass -----

  function EntryCost(item: Item): nat {
    if item.Blocked? then 2 * |item.after.afters| + 12 else 1
  }

  function ScanCost(todo: seq<Item>): nat {
    if todo == [] then 1 else EntryCost(todo[0]) + ScanCost(todo[1..])
  }

  function VisitCost(n: nat, regs: nat, inside: seq<Item>): nat {
    n * (3 * regs + 2) + 2 + ScanCost(inside)
  }

  function PassCost(groups: nat, regs: nat, inside: seq<Item>): nat {
    VisitCost(groups, regs, inside) + 1
  }

  function StepsLeft(w: WorkerPc, groups: nat, regs: nat, inside: seq<Item>): nat {
    match w
    case Head => PassCost(groups, regs, inside)
    case Visit(ids) => VisitCost(|ids|, regs, inside)
    case Poll(_, items, ids) => 3 * |items| + 1 + VisitCost(|ids|, regs, inside)
    case Failing(_, _, items, ids) => 3 * |items| + 3 + VisitCost(|ids|, regs, inside)
    case Counting(_, _, items, ids) => 3 * |items| + 2 + VisitCost(|ids|, regs, inside)
    case AftersHead => 1 + ScanCost(inside)
    case Scan(todo) => ScanCost(todo)
    case Sum(a, left, _, todo) => |left| + |a.afters| + 9 + ScanCost(todo)
    case Oks(_, left, _, todo) => |left| + 8 + ScanCost(todo)
    case Starting(_, todo) => 7 + ScanCost(todo)
    case Dispatching(_, todo) => 3 + ScanCost(todo)
    case Skipping(_, todo) => 7 + ScanCost(todo)
    case SkipMarking(_, todo) => 4 + ScanCost(todo)
    case SkipCounting(_, todo) => 3 + ScanCost(todo)
    case Locking(_, _, todo) => 5 + ScanCost(todo)
    case Notifying(_, _, todo) => 4 + ScanCost(todo)
    case Removing(_, todo) => 2 + ScanCost(todo)
    case Uncounting(todo) => 1 + ScanCost(todo)
    case Crashed => 0
  }

  // ----- whether the rest of the pass will do some work -----

  predicate Nothing(t: Table, g: GroupId) {
    g in t && t[g].count == 0
  }

  /** Every group the entry awaits has nothing left; an entry that awaits the internal group
      is the only one in it. */
  ghost predicate Runnable(t: Table, inside: seq<Item>, a: After) {
    && Blocked(a) in inside && Once(a.afters)
    && forall i :: 0 <= i < |a.afters| ==> if a.afters[i].User? then Nothing(t, a.afters[i]) else |inside| == 1
  }

  ghost predicate SomeRunnable(t: Table, inside: seq<Item>, todo: seq<Item>) {
    exists a :: Blocked(a) in todo && Runnable(t, inside, a)
  }

  predicate Ready(pool: map<Cmd, Task>, results: map<Cmd, Outcome>, item: Item) {
    item.Running? && item.cmd !in results && item.cmd in pool && !pool[item.cmd].Active?
  }

  ghost predicate SomeReady(pool: map<Cmd, Task>, results: map<Cmd, Outcome>, items: seq<Item>) {
    exists i :: 0 <= i < |items| && Ready(pool, results, items[i])
  }

  ghost predicate SomeReadyIn(t: Table, pool: map<Cmd, Task>, results: map<Cmd, Outcome>, ids: seq<GroupId>) {
    exists i :: 0 <= i < |ids| && ids[i].User? && ids[i] in t && SomeReady(pool, results, t[ids[i]].items)
  }

  ghost predicate Hopeful(w: WorkerPc, t: Table, inside: seq<Item>, pool: map<Cmd, Task>, results: map<Cmd, Outcome>) {
    match w
    case Head => true
    case Visit(ids) => SomeRunnable(t, inside, inside) || SomeReadyIn(t, pool, results, ids)
    case Poll(_, items, ids) =>
      SomeRunnable(t, inside, inside) || SomeReadyIn(t, pool, results, ids) || SomeReady(pool, results, items)
    case Failing(_, _, items, ids) =>
      SomeRunnable(t, inside, inside) || SomeReadyIn(t, pool, results, ids) || SomeReady(pool, results, items)
    case Counting(_, _, items, ids) =>
      SomeRunnable(t, inside, inside) || SomeReadyIn(t, pool, results, ids) || SomeReady(pool, results, items)
    case AftersHead => SomeRunnable(t, inside, inside)
    case Scan(todo) => SomeRunnable(t, inside, todo)
    case Sum(a, left, sum, todo) =>
      || SomeRunnable(t, inside, todo)
      || (Runnable(t, inside, a) && |left| <= |a.afters| && sum == Base(Passed(left, a.afters)))
    case Oks(a, _, sum, todo) => SomeRunnable(t, inside, todo) || sum == Base(a.afters)
    case Uncounting(todo) => SomeRunnable(t, inside, todo)
    case _ => true
  }

  /** Some command's result can be collected, some entry acted upon, or one is being. */
  ghost predicate Productive(s: State) {
    || SomeRunnable(s.table, Inside(s), Inside(s))
    || (exists g :: g in s.table && g.User? && SomeReady(s.pool, s.results, s.table[g].items))
    || Acting(s.worker)
  }

  /** The worker is past a decision. */
  predicate Acting(w: WorkerPc) {
    MarksOf(w) != NO_MARKS || w.Starting? || w.Skipping? || w.Locking?
  }

  ghost function Remaining(w: WorkerPc, t: Table, regs: nat, inside: seq<Item>, pool: map<Cmd, Task>,
                           results: map<Cmd, Outcome>): nat {
    StepsLeft(w, |t|, regs, inside) + if Hopeful(w, t, inside, pool, results) then 0 else PassCost(|t|, regs, inside)
  }

  ghost function RemainingOf(s: State): nat {
    Remaining(s.worker, s.table, |s.reg|, Inside(s), s.pool, s.results)
  }

  predicate IsRequest(e: Event) {
    e.SkipRun? || e.Run? || e.RunAfter? || e.Await?
  }

  /** The measure: work, then the main thread's position, then the worker's. */
  ghost predicate Decreases(s: State, t: State) {
    || Work(t) < Work(s)
    || (Work(t) == Work(s) && MainRank(t.main) < MainRank(s.main))
    || (Work(t) == Work(s) && MainRank(t.main) == MainRank(s.main) && RemainingOf(t) < RemainingOf(s))
  }

  // ----- work never grows; ending, recording and taking out shrink it -----

  lemma SmallerSets(a: set<Cmd>, b: set<Cmd>)
    requires b <= a
    ensures |b| <= |a| && (b != a ==> |b| < |a|)
  {
    assert a == b + (a - b);
  }

  lemma WorkMonotone(reg: Regs, pool: map<Cmd, Task>, results: map<Cmd, Outcome>, reg': Regs, pool': map<Cmd, Task>,
                     results': map<Cmd, Outcome>)
    requires reg.Keys + pool.Keys == reg'.Keys + pool'.Keys && pool.Keys <= pool'.Keys && results.Keys <= results'.Keys
    requires forall c :: c in pool && !pool[c].Active? ==> !pool'[c].Active?
    ensures |Unstarted(reg', pool', results')| <= |Unstarted(reg, pool, results)|
    ensures |Unended(reg', pool', results')| <= |Unended(reg, pool, results)|
    ensures |Unrecorded(reg', pool', results')| <= |Unrecorded(reg, pool, results)|
    ensures (exists c :: c in results' && c !in results && c in reg.Keys + pool.Keys) ==>
      |Unrecorded(reg', pool', results')| < |Unrecorded(reg, pool, results)|
    ensures (exists c :: c in pool' && c !in pool && c !in results) ==>
      |Unstarted(reg', pool', results')| < |Unstarted(reg, pool, results)|
    ensures (exists c :: c in pool && pool[c].Active? && !pool'[c].Active? && c !in results) ==>
      |Unended(reg', pool', results')| < |Unended(reg, pool, results)|
  {
    SmallerSets(Unstarted(reg, pool, results), Unstarted(reg', pool', results'));
    SmallerSets(Unended(reg, pool, results), Unended(reg', pool', results'));
    SmallerSets(Unrecorded(reg, pool, results), Unrecorded(reg', pool', results'));
    if c :| c in results' && c !in results && c in reg.Keys + pool.Keys {
      assert c in Unrecorded(reg, pool, results) && c !in Unrecorded(reg', pool', results');
    }
    if c :| c in pool' && c !in pool && c !in results {
      assert c in Unstarted(reg, pool, results) && c !in Unstarted(reg', pool', results');
    }
    if c :| c in pool && pool[c].Active? && !pool'[c].Active? && c !in results {
      assert c in Unended(reg, pool, results) && c !in Unended(reg', pool', results');
    }
  }

  lemma PoolEndDecreases(s: State, c: Cmd, ok: bool)
    requires Inv(s) && Enabled(s, PoolEnd(c, ok))
    ensures Work(Step(s, PoolEnd(c, ok))) < Work(s)
  {
    var pool := s.pool[c := if ok then Succeeded else Errored];
    assert c !in s.results;
    assert pool.Keys == s.pool.Keys;
    WorkMonotone(s.reg, s.pool, s.results, s.reg, pool, s.results);
  }

  lemma LaunchDecreases(s: State)
    requires Inv(s) && s.main.Launching?
    ensures Work(StepMain(s)) <= Work(s)
  {
    var g, c := s.main.group, s.main.cmd;
    assert g.User? && c in s.pool;
    LaunchWork(s, g, c);
  }

  lemma LaunchWork(s: State, g: GroupId, c: Cmd)
    requires s.main == Launching(g, c) && g.User? && c in s.pool && Internal in s.table
    ensures Work(StepMain(s)) <= Work(s)
  {
    var t := StepMain(s);
    assert t.table[Internal] == s.table[Internal];
    assert t.reg.Keys + t.pool.Keys == s.reg.Keys + s.pool.Keys;
    WorkMonotone(s.reg, s.pool, s.results, t.reg, t.pool, t.results);
  }

  lemma MainStepDecreases(s: State)
    requires Inv(s) && Enabled(s, MainStep)
    ensures Work(Step(s, MainStep)) <= Work(s) && MainRank(Step(s, MainStep).main) < MainRank(s.main)
  {
    if s.main.Launching? {
      LaunchDecreases(s);
    } else {
      assert Internal in s.table;
      OtherMainWork(s);
    }
  }

  lemma OtherMainWork(s: State)
    requires Internal in s.table && Enabled(s, MainStep) && !s.main.Launching?
    ensures Work(StepMain(s)) <= Work(s)
  {
    var t := StepMain(s);
    assert t.reg == s.reg && t.pool == s.pool && t.results == s.results;
  }

  // ----- the worker's reading steps -----

  lemma {:induction false} ListBound(items: seq<Item>, reg: Regs, placed: set<Cmd>, g: GroupId, cmds: set<Cmd>)
    requires UserList(items, reg, placed, g) && NoRepeat(items)
    requires forall i :: 0 <= i < |items| ==> items[i].cmd in cmds
    ensures |items| <= |cmds|
  {
    if items != [] {
      var n := |items| - 1;
      forall i | 0 <= i < n ensures items[..n][i].cmd in cmds - {items[n].cmd} {
        assert items[i] != items[n];
      }
      ListBound(items[..n], reg, placed, g, cmds - {items[n].cmd});
    }
  }

  lemma GroupBound(s: State, k: Marks, g: GroupId)
    requires Core(s, k) && g in s.table && g.User?
    ensures |s.table[g].items| <= |s.reg|
  {
    assert RollsOf(s.table)[g] == s.table[g].items;
    ListBound(s.table[g].items, s.reg, s.placed, g, s.reg.Keys);
  }

  lemma VisitLess(n: nat, regs: nat, inside: seq<Item>)
    requires n > 0
    ensures VisitCost(n, regs, inside) == VisitCost(n - 1, regs, inside) + 3 * regs + 2
  {
    assert n * (3 * regs + 2) == (n - 1) * (3 * regs + 2) + (3 * regs + 2);
  }

  lemma VisitDecreases(t: Table, ids: seq<GroupId>, regs: nat, inside: seq<Item>, pool: map<Cmd, Task>,
                       results: map<Cmd, Outcome>)
    requires Known(t.Keys, ids) && (ids != [] && ids[0].User? ==> |t[ids[0]].items| <= regs)
    ensures Remaining(NextRead(t, Visit(ids)), t, regs, inside, pool, results) <
      Remaining(Visit(ids), t, regs, inside, pool, results)
  {
    if ids != [] {
      VisitLess(|ids|, regs, inside);
      if SomeReadyIn(t, pool, results, ids) {
        var i :| 0 <= i < |ids| && ids[i].User? && ids[i] in t && SomeReady(pool, results, t[ids[i]].items);
        assert i > 0 ==> ids[1..][i - 1] == ids[i];
      }
    }
  }

  lemma SkipItem(pool: map<Cmd, Task>, results: map<Cmd, Outcome>, items: seq<Item>)
    requires items != [] && !Ready(pool, results, items[0]) && SomeReady(pool, results, items)
    ensures SomeReady(pool, results, items[1..])
  {
    var i :| 0 <= i < |items| && Ready(pool, results, items[i]);
    assert items[1..][i - 1] == items[i];
  }

  lemma PollDecreases(t: Table, id: GroupId, items: seq<Item>, ids: seq<GroupId>, regs: nat, inside: seq<Item>,
                      pool: map<Cmd, Task>, results: map<Cmd, Outcome>)
    requires items == [] || !Ready(pool, results, items[0])
    ensures Remaining(if items == [] then Visit(ids) else Poll(id, items[1..], ids), t, regs, inside, pool, results)
      < Remaining(Poll(id, items, ids), t, regs, inside, pool, results)
  {
    if items != [] && SomeReady(pool, results, items) {
      SkipItem(pool, results, items);
    }
  }

  lemma SkipEntry(t: Table, inside: seq<Item>, todo: seq<Item>)
    requires todo != [] && todo[0].Blocked? && SomeRunnable(t, inside, todo)
    ensures SomeRunnable(t, inside, todo[1..]) || Runnable(t, inside, todo[0].after)
  {
    var a :| Blocked(a) in todo && Runnable(t, inside, a);
    if a != todo[0].after {
      var i :| 0 <= i < |todo| && todo[i] == Blocked(a);
      assert todo[1..][i - 1] == Blocked(a);
    }
  }

  lemma ScanDecreases(t: Table, todo: seq<Item>, regs: nat, inside: seq<Item>, pool: map<Cmd, Task>,
                      results: map<Cmd, Outcome>)
    requires EntryList(todo)
    ensures Remaining(NextRead(t, Scan(todo)), t, regs, inside, pool, results) <
      Remaining(Scan(todo), t, regs, inside, pool, results)
  {
    if todo != [] {
      var a := todo[0].after;
      assert Passed(a.afters, a.afters) == [];
      if SomeRunnable(t, inside, todo) {
        SkipEntry(t, inside, todo);
      }
    }
  }

  lemma SumDecreases(t: Table, a: After, left: seq<GroupId>, sum: int, todo: seq<Item>, regs: nat, inside: seq<Item>,
                     pool: map<Cmd, Task>, results: map<Cmd, Outcome>)
    requires Suffix(left, a.afters) && Internal in t && t[Internal].count == |inside|
    ensures Remaining(NextRead(t, Sum(a, left, sum, todo)), t, regs, inside, pool, results)
      < Remaining(Sum(a, left, sum, todo), t, regs, inside, pool, results)
  {
    if left == [] {
      assert Passed(left, a.afters) == a.afters;
    } else {
      var k := |a.afters| - |left|;
      assert left[0] == a.afters[k];
      assert Passed(left[1..], a.afters) == Passed(left, a.afters) + [left[0]];
      if Once(a.afters) && left[0].Internal? {
        assert Internal !in Passed(left, a.afters);
      }
    }
  }

  lemma OksDecreases(t: Table, a: After, left: seq<GroupId>, sum: int, todo: seq<Item>, regs: nat, inside: seq<Item>,
                     pool: map<Cmd, Task>, results: map<Cmd, Outcome>)
    requires left != [] ==> left[0] in t
    ensures Remaining(NextRead(t, Oks(a, left, sum, todo)), t, regs, inside, pool, results)
      < Remaining(Oks(a, left, sum, todo), t, regs, inside, pool, results)
  {
  }

  lemma ReadingDecreases(s: State)
    requires Inv(s) && (s.worker.Visit? || s.worker.AftersHead? || s.worker.Scan? || s.worker.Sum? || s.worker.Oks?)
    ensures Remaining(NextRead(s.table, s.worker), s.table, |s.reg|, Inside(s), s.pool, s.results) < RemainingOf(s)
  {
    match s.worker
    case Visit(ids) =>
      if ids != [] && ids[0].User? {
        GroupBound(s, NO_MARKS, ids[0]);
      }
      VisitDecreases(s.table, ids, |s.reg|, Inside(s), s.pool, s.results);
    case AftersHead =>
    case Scan(todo) => ScanDecreases(s.table, todo, |s.reg|, Inside(s), s.pool, s.results);
    case Sum(a, left, sum, todo) => SumDecreases(s.table, a, left, sum, todo, |s.reg|, Inside(s), s.pool, s.results);
    case Oks(a, left, sum, todo) =>
      if left != [] {
        PassOne(left, a.afters);
      }
      OksDecreases(s.table, a, left, sum, todo, |s.reg|, Inside(s), s.pool, s.results);
    case _ =>
  }

  // ----- the worker's acting steps -----

  /** The table changed, but not what the rest of the pass will meet. */
  ghost predicate SameOutlook(t: Table, u: Table) {
    && u.Keys == t.Keys
    && forall g :: g in t ==> (t[g].count == 0 ==> u[g].count == 0)
  }

  lemma OutlookRunnable(t: Table, u: Table, inside: seq<Item>, todo: seq<Item>)
    requires SameOutlook(t, u) && SomeRunnable(t, inside, todo)
    ensures SomeRunnable(u, inside, todo)
  {
    var a :| Blocked(a) in todo && Runnable(t, inside, a);
    assert Runnable(u, inside, a);
  }

  lemma OutlookReady(t: Table, u: Table, pool: map<Cmd, Task>, results: map<Cmd, Outcome>, ids: seq<GroupId>)
    requires u.Keys == t.Keys && (forall g :: g in t ==> u[g].items == t[g].items) && SomeReadyIn(t, pool, results, ids)
    ensures SomeReadyIn(u, pool, results, ids)
  {
    var i :| 0 <= i < |ids| && ids[i].User? && ids[i] in t && SomeReady(pool, results, t[ids[i]].items);
    assert ids[i] in u;
  }

  lemma CollectingDecreases(t: Table, u: Table, id: GroupId, c: Cmd, items: seq<Item>, ids: seq<GroupId>, regs: nat,
                            inside: seq<Item>,
                            pool: map<Cmd, Task>, results: map<Cmd, Outcome>)
    requires SameOutlook(t, u) && (forall g :: g in t ==> u[g].items == t[g].items)
    ensures Remaining(Counting(id, c, items, ids), u, regs, inside, pool, results) <
      Remaining(Failing(id, c, items, ids), t, regs, inside, pool, results)
    ensures Remaining(Poll(id, items, ids), u, regs, inside, pool, results) <
      Remaining(Counting(id, c, items, ids), t, regs, inside, pool, results)
  {
    assert |u| == |u.Keys| && |t| == |t.Keys|;
    if SomeRunnable(t, inside, inside) {
      OutlookRunnable(t, u, inside, inside);
    }
    if SomeReadyIn(t, pool, results, ids) {
      OutlookReady(t, u, pool, results, ids);
    }
  }

  lemma EntryDecreases(t: Table, u: Table, a: After, todo: seq<Item>, regs: nat, inside: seq<Item>,
                       pool: map<Cmd, Task>, results: map<Cmd, Outcome>)
    requires u.Keys == t.Keys
    ensures Remaining(Removing(a, todo), u, regs, inside, pool, results) <
      Remaining(Dispatching(a, todo), t, regs, inside, pool, results)
    ensures Remaining(SkipMarking(a, todo), u, regs, inside, pool, results) <
      Remaining(Skipping(a, todo), t, regs, inside, pool, results)
    ensures Remaining(Removing(a, todo), u, regs, inside, pool, results) <
      Remaining(SkipCounting(a, todo), t, regs, inside, pool, results)
  {
    assert |u| == |u.Keys| && |t| == |t.Keys|;
  }

  lemma LockDecreases(t: Table, a: After, todo: seq<Item>, noError: bool, regs: nat, inside: seq<Item>,
                      pool: map<Cmd, Task>, results: map<Cmd, Outcome>)
    ensures Remaining(Notifying(a, noError, todo), t, regs, inside, pool, results) <
      Remaining(Locking(a, noError, todo), t, regs, inside, pool, results)
  {
  }

  lemma EntryDone(t: Table, u: Table, todo: seq<Item>, regs: nat, inside: seq<Item>, pool: map<Cmd, Task>,
                  results: map<Cmd, Outcome>)
    requires SameOutlook(t, u)
    ensures Remaining(Scan(todo), u, regs, inside, pool, results) <
      Remaining(Uncounting(todo), t, regs, inside, pool, results)
  {
    assert |u| == |u.Keys| && |t| == |t.Keys|;
    if SomeRunnable(t, inside, todo) {
      OutlookRunnable(t, u, inside, todo);
    }
  }

  /** Only the table and the worker's position changed, and the internal list is the same. */
  lemma SameWork(s: State, u: Table, settled: set<Cmd>, placed: set<Cmd>, w: WorkerPc)
    requires Internal in s.table && Internal in u && u[Internal].items == s.table[Internal].items
    ensures var t := s.(table := u, settled := settled, placed := placed, worker := w);
      && Work(t) == Work(s) && t.main == s.main && Inside(t) == Inside(s)
      && RemainingOf(t) == Remaining(w, u, |s.reg|, Inside(s), s.pool, s.results)
  {
  }

  lemma FailingLess(s: State, id: GroupId, c: Cmd, items: seq<Item>, ids: seq<GroupId>)
    requires s.worker == Failing(id, c, items, ids) && id.User? && id in s.table && Internal in s.table
    ensures Decreases(s, StepWorker(s))
  {
    CollectShape(s, id, c, items, ids);
    var u := s.table[id := s.table[id].(ok := false)];
    assert u.Keys == s.table.Keys;
    SameWork(s, u, s.settled, s.placed, Counting(id, c, items, ids));
    CollectingDecreases(s.table, u, id, c, items, ids, |s.reg|, Inside(s), s.pool, s.results);
  }

  lemma CountingLess(s: State, id: GroupId, c: Cmd, items: seq<Item>, ids: seq<GroupId>)
    requires s.worker == Counting(id, c, items, ids) && id.User? && id in s.table && Internal in s.table &&
      s.table[id].count > 0
    ensures Decreases(s, StepWorker(s))
  {
    CollectShape(s, id, c, items, ids);
    var u := s.table[id := s.table[id].(count := s.table[id].count - 1)];
    assert u.Keys == s.table.Keys;
    SameWork(s, u, s.settled + {c}, s.placed, Poll(id, items, ids));
    CollectingDecreases(s.table, u, id, c, items, ids, |s.reg|, Inside(s), s.pool, s.results);
  }

  /** Where the worker stands, its group exists. */
  lemma CollectFacts(s: State)
    requires Inv(s) && (s.worker.Failing? || s.worker.Counting?)
    ensures s.worker.id.User? && s.worker.id in s.table && Internal in s.table
    ensures s.worker.Counting? ==> s.table[s.worker.id].count > 0
  {
    if s.worker.Counting? {
      CountingInv(s, s.worker.id, s.worker.cmd, s.worker.items, s.worker.ids);
    }
  }

  lemma PollingDecreases(s: State, id: GroupId, items: seq<Item>, ids: seq<GroupId>)
    requires Inv(s) && s.worker == Poll(id, items, ids)
    ensures Decreases(s, StepPoll(s, id, items, ids))
  {
    if items != [] {
      PollFacts(s, id, items, ids);
    }
    if items != [] && Ready(s.pool, s.results, items[0]) {
      CollectWork(s, id, items[0].cmd, items[1..], ids);
    } else {
      PassOver(s, id, items, ids);
    }
  }

  lemma PassOver(s: State, id: GroupId, items: seq<Item>, ids: seq<GroupId>)
    requires s.worker == Poll(id, items, ids)
    requires items != [] ==>
      items[0].Running? && !Ready(s.pool, s.results, items[0]) && (items[0].cmd in s.results || items[0].cmd in s.pool)
    ensures Decreases(s, StepPoll(s, id, items, ids))
  {
    PollDecreases(s.table, id, items, ids, |s.reg|, Inside(s), s.pool, s.results);
  }

  lemma CollectWork(s: State, id: GroupId, c: Cmd, items: seq<Item>, ids: seq<GroupId>)
    requires c in s.pool && !s.pool[c].Active? && c !in s.results
    ensures Work(StepCollect(s, id, c, items, ids)) < Work(s)
  {
    var t := StepCollect(s, id, c, items, ids);
    assert c in t.results;
    WorkMonotone(s.reg, s.pool, s.results, t.reg, t.pool, t.results);
  }

  lemma PlacingLess(s: State, a: After, g: GroupId, todo: seq<Item>)
    requires a.action == Todo(g) && g.User? && g in s.table && Internal in s.table && s.table[g].countInFalse > 0
    requires s.worker == Dispatching(a, todo) || s.worker == Skipping(a, todo)
    ensures Decreases(s, StepEntry(s))
  {
    PlaceShape(s, a, g, todo);
    var u := s.table[g := Joined(s.table[g], a.id)];
    assert u.Keys == s.table.Keys;
    SameWork(s, u, s.settled, s.placed + {a.id},
             if s.worker.Dispatching? then Removing(a, todo) else SkipMarking(a, todo));
    EntryDecreases(s.table, u, a, todo, |s.reg|, Inside(s), s.pool, s.results);
  }

  lemma SkipLess(s: State, a: After, g: GroupId, todo: seq<Item>)
    requires a.action == Todo(g) && g.User? && g in s.table && Internal in s.table
    requires (s.worker == SkipMarking(a, todo) && a.id in s.reg && a.id !in s.results)
      || (s.worker == SkipCounting(a, todo) && s.table[g].count > 0)
    ensures Decreases(s, StepEntry(s))
  {
    SkipShape(s, a, g, todo);
    if s.worker.SkipMarking? {
      var t := StepEntry(s);
      assert a.id in t.results;
      WorkMonotone(s.reg, s.pool, s.results, t.reg, t.pool, t.results);
    } else {
      var u := s.table[g := s.table[g].(count := s.table[g].count - 1)];
      assert u.Keys == s.table.Keys;
      SameWork(s, u, s.settled + {a.id}, s.placed, Removing(a, todo));
      EntryDecreases(s.table, u, a, todo, |s.reg|, Inside(s), s.pool, s.results);
    }
  }

  lemma StartLess(s: State, a: After, todo: seq<Item>)
    requires s.worker == Starting(a, todo) && a.id in s.reg && a.id !in s.pool && a.id !in s.results
    ensures Work(StepEntry(s)) < Work(s)
  {
    var t := StepEntry(s);
    assert t.reg.Keys + t.pool.Keys == s.reg.Keys + s.pool.Keys;
    assert a.id in t.pool;
    WorkMonotone(s.reg, s.pool, s.results, t.reg, t.pool, t.results);
  }

  lemma WakeLess(s: State)
    requires s.worker.Locking? || (s.worker.Notifying? && s.main == Waiting(s.worker.a))
    ensures Decreases(s, StepEntry(s))
  {
    if s.worker.Locking? {
      LockDecreases(s.table, s.worker.a, s.worker.todo, s.worker.noError, |s.reg|, Inside(s), s.pool, s.results);
    }
  }

  lemma RemoveLess(s: State, a: After, todo: seq<Item>)
    requires s.worker == Removing(a, todo) && Internal in s.table && Blocked(a) in Inside(s)
    ensures Work(StepEntry(s)) < Work(s)
  {
    RemoveShape(s, a, todo, IndexOf(Inside(s), Blocked(a)));
  }

  lemma UncountLess(s: State, todo: seq<Item>)
    requires s.worker == Uncounting(todo) && Internal in s.table && s.table[Internal].count > 0
    requires s.table[Internal].count == |Inside(s)| + 1
    ensures Decreases(s, StepEntry(s))
  {
    UncountShape(s, todo);
    var u := s.table[Internal := s.table[Internal].(count := s.table[Internal].count - 1)];
    assert u.Keys == s.table.Keys;
    SameWork(s, u, s.settled, s.placed, Scan(todo));
    EntryDone(s.table, u, todo, |s.reg|, Inside(s), s.pool, s.results);
  }

  lemma PlaceFacts(s: State, a: After, g: GroupId)
    requires Inv(s) && (s.worker.Dispatching? || s.worker.Skipping?) && s.worker.a == a && a.action == Todo(g)
    ensures g.User? && g in s.table && Internal in s.table && s.table[g].countInFalse > 0
  {
    EntryPlace(s, a);
    KnownGroup(s, a.id, g);
    if s.worker.Dispatching? {
      PlaceDispatched(s, a, g);
    } else {
      PlaceSkipped(s, a, g);
    }
  }

  lemma SkipFacts(s: State, a: After, g: GroupId)
    requires Inv(s) && (s.worker.SkipMarking? || s.worker.SkipCounting?) && s.worker.a == a && a.action == Todo(g)
    ensures g.User? && g in s.table && Internal in s.table && a.id in s.reg
    ensures s.worker.SkipMarking? ==> a.id !in s.results
    ensures s.worker.SkipCounting? ==> s.table[g].count > 0
  {
    EntryLeft(s, a, g);
    if s.worker.SkipCounting? {
      Uncount(s, MarksOf(s.worker), g, a.id);
    }
  }

  lemma ActFacts(s: State)
    requires Inv(s)
    ensures s.worker.Starting? ==> var a := s.worker.a; a.id in s.reg && a.id !in s.pool && a.id !in s.results
    ensures s.worker.Notifying? ==> s.main == Waiting(s.worker.a)
    ensures s.worker.Removing? ==> Internal in s.table && Blocked(s.worker.a) in Inside(s)
    ensures s.worker.Uncounting? ==>
      Internal in s.table && s.table[Internal].count > 0 && s.table[Internal].count == |Inside(s)| + 1
  {
    if s.worker.Starting? {
      EntryPlace(s, s.worker.a);
    }
  }

  lemma ActingDecreases(s: State)
    requires Inv(s) && Acting(s.worker) && Enabled(s, WorkerStep) && !s.worker.Failing? && !s.worker.Counting?
    ensures Decreases(s, StepEntry(s))
  {
    ActFacts(s);
    match s.worker
    case Starting(a, todo) => StartLess(s, a, todo);
    case Dispatching(a, todo) => PlaceFacts(s, a, a.action.group); PlacingLess(s, a, a.action.group, todo);
    case Skipping(a, todo) => PlaceFacts(s, a, a.action.group); PlacingLess(s, a, a.action.group, todo);
    case SkipMarking(a, todo) => SkipFacts(s, a, a.action.group); SkipLess(s, a, a.action.group, todo);
    case SkipCounting(a, todo) => SkipFacts(s, a, a.action.group); SkipLess(s, a, a.action.group, todo);
    case Locking(a, noError, todo) => WakeLess(s);
    case Notifying(a, noError, todo) => WakeLess(s);
    case Removing(a, todo) => RemoveLess(s, a, todo);
    case Uncounting(todo) => UncountLess(s, todo);
    case _ =>
  }

  lemma WorkerStepDecreases(s: State)
    requires Inv(s) && Enabled(s, WorkerStep)
    ensures Decreases(s, Step(s, WorkerStep))
  {
    var w := s.worker;
    if w.Visit? || w.AftersHead? || w.Scan? || w.Sum? || w.Oks? {
      ReadingDecreases(s);
    } else if w.Poll? {
      PollingDecreases(s, w.id, w.items, w.ids);
    } else if w.Failing? {
      CollectFacts(s);
      FailingLess(s, w.id, w.cmd, w.items, w.ids);
    } else if w.Counting? {
      CollectFacts(s);
      CountingLess(s, w.id, w.cmd, w.items, w.ids);
    } else {
      ActingDecreases(s);
    }
  }

  lemma StartPass(t: Table, ids: seq<GroupId>, regs: nat, inside: seq<Item>, pool: map<Cmd, Task>,
                  results: map<Cmd, Outcome>)
    requires |ids| == |t| && forall g :: g in t ==> g in ids
    requires SomeRunnable(t, inside, inside) || exists g :: g in t && g.User? && SomeReady(pool, results, t[g].items)
    ensures Remaining(Visit(ids), t, regs, inside, pool, results) < Remaining(Head, t, regs, inside, pool, results)
  {
    if !SomeRunnable(t, inside, inside) {
      var g :| g in t && g.User? && SomeReady(pool, results, t[g].items);
      var i :| 0 <= i < |ids| && ids[i] == g;
    }
  }

  lemma WorkerStartDecreases(s: State, ids: seq<GroupId>)
    requires Enabled(s, WorkerStart(ids)) && Productive(s) && Internal in s.table
    ensures Decreases(s, Step(s, WorkerStart(ids)))
  {
    StartPass(s.table, ids, |s.reg|, Inside(s), s.pool, s.results);
    SameWork(s, s.table, s.settled, s.placed, Visit(ids));
  }

  /** While something productive remains, every step other than a new request decreases the
      measure: the start of a pass too, as it then has something to do. */
  lemma MeasureDecreases(s: State, e: Event)
    requires Inv(s) && Enabled(s, e) && !IsRequest(e) && (e.WorkerStart? ==> Productive(s))
    ensures Decreases(s, Step(s, e))
  {
    match e
    case MainStep => MainStepDecreases(s);
    case PoolEnd(c, ok) => PoolEndDecreases(s, c, ok);
    case WorkerStart(ids) => WorkerStartDecreases(s, ids);
    case WorkerStep => WorkerStepDecreases(s);
  }
}
