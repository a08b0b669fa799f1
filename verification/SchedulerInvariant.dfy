/** What every step of the two-thread system keeps. */
module SchedulerInvariant {
  import opened Attempts
  import opened Groups
  import opened Scheduler

  type Regs = map<Cmd, Registration>
  type Rolls = map<GroupId, seq<Item>>

  function RollsOf(t: Table): Rolls {
    map g | g in t :: t[g].items
  }

  /** What the worker is in the middle of, whatever list it is walking. */
  datatype Marks = Marks(
    leaver: Option<After>,     // the entry it takes out, whose command is already in its group
    dispatched: Option<Cmd>,   // in the pool, not yet in its group
    skipped: Option<Cmd>,      // in its group, not yet marked as not run
    inFlight: Option<Cmd>,     // recorded, not yet uncounted
    unflagged: Option<Cmd>,    // failed, group not yet flagged
    notifying: bool,
    extra: int)                // entries removed and still counted

  const NO_MARKS := Marks(None, None, None, None, None, false, 0)

  function MarksOf(w: WorkerPc): Marks {
    match w
    case Failing(_, c, _, _) => NO_MARKS.(inFlight := Some(c), unflagged := Some(c))
    case Counting(_, c, _, _) => NO_MARKS.(inFlight := Some(c))
    case Dispatching(a, _) => NO_MARKS.(dispatched := Some(a.id))
    case SkipMarking(a, _) => NO_MARKS.(leaver := Some(a), skipped := Some(a.id))
    case SkipCounting(a, _) => NO_MARKS.(leaver := Some(a), inFlight := Some(a.id))
    case Notifying(_, _, _) => NO_MARKS.(notifying := true)
    case Removing(a, _) => NO_MARKS.(leaver := Some(a))
    case Uncounting(_) => NO_MARKS.(extra := 1)
    case _ => NO_MARKS
  }

  // ----- what the counters count -----

  /** Commands counted in `g`: registered and not yet uncounted. */
  function Open(reg: Regs, settled: set<Cmd>, g: GroupId): set<Cmd> {
    set c | c in reg && reg[c].group == g && c !in settled
  }

  /** Commands of `g` that are registered but not yet in its list. */
  function Unplaced(reg: Regs, placed: set<Cmd>, g: GroupId): set<Cmd> {
    set c | c in reg && reg[c].group == g && c !in placed
  }

  function AfterOf(reg: Regs, c: Cmd): After
    requires c in reg
  {
    After(c, reg[c].awaits, Todo(reg[c].group))
  }

  ghost predicate Counts(t: Table, reg: Regs, placed: set<Cmd>, settled: set<Cmd>, extra: int) {
    && (forall g :: g in t && g.User? ==>
          t[g].count == |Open(reg, settled, g)| && t[g].countInFalse == |Unplaced(reg, placed, g)|)
    && Internal in t
    && t[Internal].count == |t[Internal].items| + extra
  }

  // ----- the lists -----

  ghost predicate UserList(items: seq<Item>, reg: Regs, placed: set<Cmd>, g: GroupId) {
    forall i :: 0 <= i < |items| ==>
      items[i].Running? && items[i].cmd in placed && items[i].cmd in reg && reg[items[i].cmd].group == g
  }

  ghost predicate NoRepeat(items: seq<Item>) {
    forall i, j :: 0 <= i < j < |items| ==> items[i] != items[j]
  }

  /** Waiting entries with distinct serial numbers. */
  ghost predicate EntryList(items: seq<Item>) {
    && (forall i :: 0 <= i < |items| ==> items[i].Blocked?)
    && (forall i, j :: 0 <= i < j < |items| ==> items[i].after.id != items[j].after.id)
  }

  ghost predicate UserRolls(rolls: Rolls, reg: Regs, placed: set<Cmd>) {
    forall g :: g in rolls && g.User? ==> UserList(rolls[g], reg, placed, g) && NoRepeat(rolls[g])
  }

  ghost predicate Known(groups: set<GroupId>, ids: seq<GroupId>) {
    forall i :: 0 <= i < |ids| ==> ids[i] in groups
  }

  ghost predicate RegsOk(groups: set<GroupId>, reg: Regs, next: nat) {
    forall c :: c in reg ==>
      && c < next && reg[c].group.User? && reg[c].group in groups
      && AllUser(reg[c].awaits) && Known(groups, reg[c].awaits)
      && (forall d :: d in reg[c].need ==> d in reg && reg[d].group in reg[c].awaits)
  }

  ghost predicate PlacedOk(rolls: Rolls, reg: Regs, placed: set<Cmd>) {
    forall c :: c in placed ==> c in reg && reg[c].group in rolls && Item.Running(c) in rolls[reg[c].group]
  }

  // ----- entries of the internal group -----

  function Awaited(m: MainPc): Option<After> {
    if m.Enlisted? || m.Waiting? then Some(m.entry) else None
  }

  function BeingBlocked(m: MainPc): Option<After> {
    if m.Blocking? then Some(m.after) else None
  }

  ghost predicate EntriesOk(inside: seq<Item>, reg: Regs, placed: set<Cmd>, next: nat, waiter: Option<After>,
                            leaver: Option<After>) {
    && EntryList(inside)
    && forall i :: 0 <= i < |inside| ==> var a := inside[i].after;
         && a.id < next
         && (a.action.Todo? ==> a.id in reg && a == AfterOf(reg, a.id) && (a.id in placed ==> leaver == Some(a)))
         && (a.action.Wake? ==> a.id !in reg && (waiter == Some(a) || leaver == Some(a)))
  }

  ghost predicate BlockedOk(inside: seq<Item>, reg: Regs, placed: set<Cmd>, incoming: Option<After>) {
    && (forall c :: c in reg && c !in placed ==>
          Blocked(AfterOf(reg, c)) in inside || incoming == Some(AfterOf(reg, c)))
    && (incoming.Some? ==> var a := incoming.value;
          && a.action.Todo? && a.id in reg && a == AfterOf(reg, a.id) && a.id !in placed
          && (forall i :: 0 <= i < |inside| && inside[i].Blocked? ==> inside[i].after.id != a.id))
  }

  ghost predicate WaiterOk(waiter: Option<After>, inside: seq<Item>, groups: set<GroupId>, reg: Regs,
                           waitFor: set<Cmd>) {
    waiter.Some? ==> var a := waiter.value;
      && a.action.Wake? && Blocked(a) in inside && Known(groups, a.afters) && Once(a.afters)
      && (forall c :: c in waitFor ==> c in reg && reg[c].group in a.afters)
  }

  function Launched(m: MainPc): Option<(GroupId, Cmd)> {
    if m.Launching? then Some((m.group, m.cmd)) else None
  }

  ghost predicate LaunchOk(launched: Option<(GroupId, Cmd)>, inside: seq<Item>, reg: Regs, placed: set<Cmd>,
                           next: nat) {
    launched.Some? ==> var c := launched.value.1;
      && launched.value.0.User? && c < next && c !in reg && c !in placed
      && (forall i :: 0 <= i < |inside| && inside[i].Blocked? ==> inside[i].after.id != c)
  }

  ghost predicate AllSaved(results: map<Cmd, Outcome>, cmds: set<Cmd>) {
    forall c :: c in cmds ==> c in results && results[c].Saved?
  }

  ghost predicate MainOk(m: MainPc, groups: set<GroupId>, results: map<Cmd, Outcome>, done: bool, waitFor: set<Cmd>) {
    && (m.Acquired? ==> Known(groups, m.args) && Once(m.args))
    && (m.Notified? && done ==> AllSaved(results, waitFor))
  }

  ghost predicate LockOk(lock: Owner, m: MainPc, notifying: bool) {
    && (lock.ByMain? <==> m.Acquired? || m.Enlisted?)
    && (lock.ByWorker? <==> notifying)
  }

  // ----- the pool and the recorded results -----

  ghost predicate PoolOk(pool: set<Cmd>, reg: Regs, placed: set<Cmd>, next: nat, launched: Option<(GroupId, Cmd)>,
                         dispatched: Option<Cmd>) {
    && (forall c :: c in pool ==> c < next && (c in reg || (launched.Some? && launched.value.1 == c)))
    && (forall c :: c in pool && c in reg && c !in placed ==> dispatched == Some(c))
    && (launched.Some? ==> launched.value.1 in pool)
  }

  ghost predicate ResultOk(o: Outcome, c: Cmd, depsSaved: set<Cmd>, pool: map<Cmd, Task>) {
    match o
    case Saved => c in depsSaved && c in pool && pool[c].Succeeded?
    case Failed => c in pool && pool[c].Errored?
    case NotRun => c !in pool
  }

  ghost predicate ResultsOk(results: map<Cmd, Outcome>, placed: set<Cmd>, depsSaved: set<Cmd>, pool: map<Cmd, Task>,
                            skipped: Option<Cmd>) {
    && (forall c :: c in placed ==> c in pool || c in results || skipped == Some(c))
    && (forall c :: c in results ==> c in placed && ResultOk(results[c], c, depsSaved, pool))
  }

  ghost predicate SettledOk(settled: set<Cmd>, results: map<Cmd, Outcome>, inFlight: Option<Cmd>) {
    && (forall c :: c in settled ==> c in results)
    && (forall c :: c in results && c !in settled ==> inFlight == Some(c))
  }

  /** A group that holds a command that did not succeed is flagged. */
  ghost predicate Flags(t: Table, reg: Regs, results: map<Cmd, Outcome>, unflagged: Option<Cmd>) {
    && Internal in t && t[Internal].ok
    && forall c :: c in results && !results[c].Saved? && c in reg && reg[c].group in t ==>
         !t[reg[c].group].ok || unflagged == Some(c)
  }

  /** Nothing runs before everything it waits for has succeeded. */
  ghost predicate NeedsMet(pool: set<Cmd>, reg: Regs, results: map<Cmd, Outcome>) {
    forall c :: c in pool && c in reg ==> AllSaved(results, reg[c].need)
  }

  // ----- where the worker is -----

  ghost predicate TodoOk(inside: seq<Item>, todo: seq<Item>) {
    EntryList(todo) && forall i :: 0 <= i < |todo| ==> todo[i] in inside
  }

  ghost predicate CurrentOk(inside: seq<Item>, groups: set<GroupId>, a: After, todo: seq<Item>) {
    && Blocked(a) in inside && TodoOk(inside, todo) && Known(groups, a.afters)
    && (forall i :: 0 <= i < |todo| && todo[i].Blocked? ==> todo[i].after.id != a.id)
  }

  /** The commands an entry stands for. */
  function NeedOf(reg: Regs, waitFor: set<Cmd>, a: After): set<Cmd> {
    if a.action.Wake? then waitFor else if a.id in reg then reg[a.id].need else {}
  }

  function Base(ids: seq<GroupId>): int {
    if Internal in ids then 1 else 0
  }

  /** Every command of `cmds` whose group is in `ids` is uncounted. */
  ghost predicate SettledIn(reg: Regs, settled: set<Cmd>, cmds: set<Cmd>, ids: seq<GroupId>) {
    forall c :: c in cmds && c in reg && reg[c].group in ids ==> c in settled
  }

  ghost predicate SavedIn(reg: Regs, results: map<Cmd, Outcome>, cmds: set<Cmd>, ids: seq<GroupId>) {
    forall c :: c in cmds && c in reg && reg[c].group in ids ==> c in results && results[c].Saved?
  }

  predicate Suffix(left: seq<GroupId>, all: seq<GroupId>) {
    |left| <= |all| && left == all[|all| - |left|..]
  }

  function Passed(left: seq<GroupId>, all: seq<GroupId>): seq<GroupId>
    requires |left| <= |all|
  {
    all[..|all| - |left|]
  }

  ghost predicate CollectOk(groups: set<GroupId>, reg: Regs, placed: set<Cmd>, id: GroupId, items: seq<Item>,
                            ids: seq<GroupId>) {
    id.User? && id in groups && UserList(items, reg, placed, id) && Known(groups, ids)
  }

  /** `c` is recorded and still counted in `id`. */
  predicate Unsettled(reg: Regs, settled: set<Cmd>, results: map<Cmd, Outcome>, id: GroupId, c: Cmd) {
    c in results && c !in settled && c in reg && reg[c].group == id
  }

  function Inside(s: State): seq<Item> {
    if Internal in s.table then s.table[Internal].items else []
  }

  /** The facts tied to the lists the worker is walking. */
  ghost predicate PcOk(w: WorkerPc, groups: set<GroupId>, inside: seq<Item>, reg: Regs, placed: set<Cmd>,
                       settled: set<Cmd>,
                       results: map<Cmd, Outcome>, pool: set<Cmd>, waitFor: set<Cmd>, m: MainPc) {
    match w
    case Head => true
    case Visit(ids) => Known(groups, ids)
    case Poll(id, items, ids) => CollectOk(groups, reg, placed, id, items, ids)
    case Failing(id, c, items, ids) =>
      CollectOk(groups, reg, placed, id, items, ids) && Unsettled(reg, settled, results, id, c) && results[c].Failed?
    case Counting(id, c, items, ids) =>
      CollectOk(groups, reg, placed, id, items, ids) && Unsettled(reg, settled, results, id, c)
    case AftersHead => true
    case Scan(todo) => TodoOk(inside, todo)
    case Sum(a, left, sum, todo) =>
      && CurrentOk(inside, groups, a, todo) && Suffix(left, a.afters) && sum >= Base(Passed(left, a.afters))
      && (sum == Base(Passed(left, a.afters)) ==>
           SettledIn(reg, settled, NeedOf(reg, waitFor, a), Passed(left, a.afters)))
    case Oks(a, left, sum, todo) =>
      && CurrentOk(inside, groups, a, todo) && Suffix(left, a.afters) && sum >= Base(a.afters)
      && (sum == Base(a.afters) ==>
            && SettledIn(reg, settled, NeedOf(reg, waitFor, a), a.afters)
            && SavedIn(reg, results, NeedOf(reg, waitFor, a), Passed(left, a.afters)))
    case Starting(a, todo) => CurrentOk(inside, groups, a, todo) && a.action.Todo? &&
      AllSaved(results, NeedOf(reg, waitFor, a))
    case Dispatching(a, todo) => CurrentOk(inside, groups, a, todo) && a.action.Todo? && a.id in pool
    case Skipping(a, todo) => CurrentOk(inside, groups, a, todo) && a.action.Todo?
    case SkipMarking(a, todo) =>
      CurrentOk(inside, groups, a, todo) && a.action.Todo? && a.id in placed && a.id !in pool && a.id !in results
    case SkipCounting(a, todo) =>
      CurrentOk(inside, groups, a, todo) && a.action.Todo? && a.id in results && a.id !in settled && a.id in placed
    case Locking(a, noError, todo) => CurrentOk(inside, groups, a, todo) && a.action.Wake? &&
      (noError ==> AllSaved(results, waitFor))
    case Notifying(a, noError, todo) =>
      CurrentOk(inside, groups, a, todo) && a.action.Wake? && (noError ==> AllSaved(results, waitFor)) &&
      m == Waiting(a)
    case Removing(a, todo) =>
      && CurrentOk(inside, groups, a, todo) && (a.action.Todo? ==> a.id in placed)
      && (a.action.Wake? ==> Awaited(m) != Some(a))
    case Uncounting(todo) => TodoOk(inside, todo)
    case Crashed => false
  }

  ghost predicate WorkerOk(s: State) {
    PcOk(s.worker, s.table.Keys, Inside(s), s.reg, s.placed, s.settled, s.results, s.pool.Keys, s.waitFor, s.main)
  }

  /** The table of groups, its counters and the entries of the internal group. */
  ghost predicate Tables(t: Table, reg: Regs, placed: set<Cmd>, settled: set<Cmd>, next: nat, m: MainPc,
                         waitFor: set<Cmd>, k: Marks) {
    && Internal in t
    && UserRolls(RollsOf(t), reg, placed)
    && RegsOk(t.Keys, reg, next)
    && PlacedOk(RollsOf(t), reg, placed)
    && Counts(t, reg, placed, settled, k.extra)
    && EntriesOk(t[Internal].items, reg, placed, next, Awaited(m), k.leaver)
    && BlockedOk(t[Internal].items, reg, placed, BeingBlocked(m))
    && WaiterOk(Awaited(m), t[Internal].items, t.Keys, reg, waitFor)
    && LaunchOk(Launched(m), t[Internal].items, reg, placed, next)
  }

  /** The pool, the recorded results and the flags. */
  ghost predicate Results(t: Table, pool: map<Cmd, Task>, results: map<Cmd, Outcome>, depsSaved: set<Cmd>,
                          reg: Regs, placed: set<Cmd>, settled: set<Cmd>, next: nat, launched: Option<(GroupId, Cmd)>,
                          k: Marks) {
    && PoolOk(pool.Keys, reg, placed, next, launched, k.dispatched)
    && ResultsOk(results, placed, depsSaved, pool, k.skipped)
    && SettledOk(settled, results, k.inFlight)
    && Flags(t, reg, results, k.unflagged)
    && NeedsMet(pool.Keys, reg, results)
  }

  /** Some part of the invariant, other than the facts tied to the lists the worker is walking,
      fails. (Said of the failure, a proof takes the whole as one fact.) */
  ghost predicate Broken(s: State, k: Marks) {
    || !Tables(s.table, s.reg, s.placed, s.settled, s.next, s.main, s.waitFor, k)
    || !Results(s.table, s.pool, s.results, s.depsSaved, s.reg, s.placed, s.settled, s.next, Launched(s.main), k)
    || !MainOk(s.main, s.table.Keys, s.results, s.done, s.waitFor)
    || !LockOk(s.lock, s.main, k.notifying)
  }

  ghost predicate Core(s: State, k: Marks) {
    !Broken(s, k)
  }

  ghost predicate Violated(s: State) {
    Broken(s, MarksOf(s.worker)) || !WorkerOk(s)
  }

  ghost predicate Inv(s: State) {
    !Violated(s)
  }

  lemma InitialInv()
    ensures Inv(INITIAL)
  {
  }
}
