/** The parallel builder as a two-thread step system. The main thread registers commands
    and waits for groups; the worker (the results-handling thread) collects finished pool
    tasks, dispatches blocked commands and wakes the main thread. Each access to the group
    table is one atomic step, so every interleaving of the two threads and of the pool is
    a run of this system. */
module Scheduler {
  import opened Groups

  /** What the pool holds for a command handed to it. */
  datatype Task = Active | Succeeded | Errored

  /** What the worker recorded for a command: dependencies saved, failed, or not run
      because something it waits for failed. */
  datatype Outcome = Saved | Failed | NotRun

  /** Bookkeeping written when a command is first counted in its group; nothing in a step
      depends on it. `need` holds every command already counted in an awaited group. */
  datatype Registration = Registration(group: GroupId, awaits: seq<GroupId>, need: set<Cmd>)

  datatype MainPc =
    | Idle
    | Launching(group: GroupId, cmd: Cmd)  // task in the pool, not yet in its group
    | Blocking(after: After)               // counted in its group, not yet in Internal
    | Acquired(args: seq<GroupId>)         // holds the condition, entry not yet added
    | Enlisted(entry: After)               // entry added, condition still held
    | Waiting(entry: After)
    | Notified(entry: After)
    | Exited

  datatype WorkerPc =
    | Head
    | Visit(ids: seq<GroupId>)
    | Poll(id: GroupId, items: seq<Item>, ids: seq<GroupId>)
    | Failing(id: GroupId, cmd: Cmd, items: seq<Item>, ids: seq<GroupId>)
    | Counting(id: GroupId, cmd: Cmd, items: seq<Item>, ids: seq<GroupId>)
    | AftersHead
    | Scan(todo: seq<Item>)
    | Sum(a: After, left: seq<GroupId>, sum: int, todo: seq<Item>)
    | Oks(a: After, left: seq<GroupId>, sum: int, todo: seq<Item>)
    | Starting(a: After, todo: seq<Item>)
    | Dispatching(a: After, todo: seq<Item>)
    | Skipping(a: After, todo: seq<Item>)
    | SkipMarking(a: After, todo: seq<Item>)
    | SkipCounting(a: After, todo: seq<Item>)
    | Locking(a: After, noError: bool, todo: seq<Item>)
    | Notifying(a: After, noError: bool, todo: seq<Item>)
    | Removing(a: After, todo: seq<Item>)
    | Uncounting(todo: seq<Item>)
    | Crashed

  datatype Owner = Free | ByMain | ByWorker

  datatype State = State(
    table: Table,
    pool: map<Cmd, Task>,
    results: map<Cmd, Outcome>,
    depsSaved: set<Cmd>,
    main: MainPc,
    worker: WorkerPc,
    lock: Owner,                      // the condition of the current wait
    done: bool,                       // the flag of the current waiting entry
    next: nat,
    reg: map<Cmd, Registration>,      // bookkeeping from here on
    placed: set<Cmd>,                 // commands that are in their group's list
    settled: set<Cmd>,                // commands already uncounted from their group
    waitFor: set<Cmd>)                // commands the current waiting entry stands for

  const INITIAL := State(map[Internal := EMPTY_VALUE], map[], map[], {}, Idle, Head, Free, false, 0,
                         map[], {}, {}, {})

  datatype Event =
    | SkipRun(group: GroupId)                              // the command is up to date
    | Run(group: GroupId)
    | RunAfter(group: GroupId, afters: seq<GroupId>)
    | Await(args: seq<GroupId>)
    | MainStep                                             // finish what the main thread began
    | PoolEnd(cmd: Cmd, ok: bool)
    | WorkerStart(ids: seq<GroupId>)
    | WorkerStep

  predicate AllUser(ids: seq<GroupId>) {
    forall i :: 0 <= i < |ids| ==> ids[i].User?
  }

  predicate AllKnown(t: Table, ids: seq<GroupId>) {
    forall i :: 0 <= i < |ids| ==> ids[i] in t
  }

  /** The internal group is named at most once, as in the default of waiting for every group. */
  predicate Once(ids: seq<GroupId>) {
    forall i, j :: 0 <= i < j < |ids| && ids[i].Internal? ==> ids[j].User?
  }

  /** Does the thread or pool that performs `e` have it to perform? Names handed to `run`
      are never the internal one, and groups awaited exist. */
  predicate Enabled(s: State, e: Event) {
    match e
    case SkipRun(g) => s.main.Idle? && g.User?
    case Run(g) => s.main.Idle? && g.User?
    case RunAfter(g, afters) => s.main.Idle? && g.User? && AllUser(afters) && AllKnown(s.table, afters)
    case Await(args) => s.main.Idle? && AllKnown(s.table, args) && Once(args)
    case MainStep => !s.main.Idle? && !s.main.Waiting? && !s.main.Exited? && (s.main.Notified? ==> s.lock.Free?)
    case PoolEnd(c, _) => c in s.pool && s.pool[c].Active?
    case WorkerStart(ids) => s.worker.Head? && AllKnown(s.table, ids) && |ids| == |s.table| &&
      forall g :: g in s.table ==> g in ids
    case WorkerStep => !s.worker.Head? && !s.worker.Crashed? && (s.worker.Locking? ==> s.lock.Free?)
  }

  function CountedIn(s: State, groups: seq<GroupId>): set<Cmd> {
    set c | c in s.reg && s.reg[c].group in groups
  }

  function Step(s: State, e: Event): State
    requires Enabled(s, e)
  {
    match e
    case SkipRun(g) => s.(table := Ensure(s.table, g))
    case Run(g) => s.(pool := s.pool[s.next := Active], main := Launching(g, s.next), next := s.next + 1)
    case RunAfter(g, afters) =>
      s.(table := IncCountForBlocked(s.table, g),
         reg := s.reg[s.next := Registration(g, afters, CountedIn(s, afters) + if g in afters then {s.next} else {})],
         main := Blocking(After(s.next, afters, Todo(g))),
         next := s.next + 1)
    case Await(args) => s.(main := Acquired(args), lock := ByMain)
    case MainStep => StepMain(s)
    case PoolEnd(c, ok) => s.(pool := s.pool[c := if ok then Succeeded else Errored])
    case WorkerStart(ids) => s.(worker := Visit(ids))
    case WorkerStep => StepWorker(s)
  }

  function StepMain(s: State): State
    requires Enabled(s, MainStep)
  {
    match s.main
    case Launching(g, c) =>
      s.(table := Add(s.table, g, Item.Running(c)), reg := s.reg[c := Registration(g, [], {})],
         placed := s.placed + {c}, main := Idle)
    case Blocking(a) => s.(table := Add(s.table, Internal, Blocked(a)), main := Idle)
    case Acquired(args) =>
      var a := After(s.next, args, Wake);
      s.(table := Add(s.table, Internal, Blocked(a)), main := Enlisted(a), next := s.next + 1,
         done := false, waitFor := CountedIn(s, args))
    case Enlisted(a) => s.(main := Waiting(a), lock := Free)
    case Notified(a) => s.(main := if s.done then Idle else Exited)
    case _ => s
  }

  function Crash(s: State): State {
    s.(worker := Crashed)
  }

  /** The steps that only read the table and move the worker on. */
  function NextRead(t: Table, w: WorkerPc): WorkerPc {
    match w
    case Visit(ids) =>
      if ids == [] then AftersHead
      else if ids[0].Internal? then Visit(ids[1..])
      else
        (match ItemList(t, ids[0])
         case Raised(_) => Crashed
         case Done(items) => Poll(ids[0], items, ids[1..]))
    case AftersHead =>
      (match ItemList(t, Internal)
       case Raised(_) => Crashed
       case Done(items) => Scan(items))
    case Scan(todo) =>
      if todo == [] then Head
      else if todo[0].Running? then Crashed
      else Sum(todo[0].after, todo[0].after.afters, 0, todo[1..])
    case Sum(a, left, sum, todo) =>
      if left == [] then Oks(a, a.afters, sum, todo)
      else Sum(a, left[1..], sum + GetCount(t, left[0]), todo)
    case Oks(a, left, sum, todo) =>
      if left == [] then Decide(a, sum, true, todo)
      else
        (match GetOk(t, left[0])
         case Raised(_) => Crashed
         case Done(ok) => if ok then Oks(a, left[1..], sum, todo) else Decide(a, sum, false, todo))
    case _ => w
  }

  function StepWorker(s: State): State
    requires Enabled(s, WorkerStep)
  {
    match s.worker
    case Poll(id, items, ids) => StepPoll(s, id, items, ids)
    case Failing(id, c, items, ids) =>
      (match SetOk(s.table, id, false)
       case Raised(_) => Crash(s)
       case Done(t) => s.(table := t, worker := Counting(id, c, items, ids)))
    case Counting(id, c, items, ids) =>
      (match DecCount(s.table, id)
       case Raised(_) => Crash(s)
       case Done(t) => s.(table := t, settled := s.settled + {c}, worker := Poll(id, items, ids)))
    case Visit(_) => s.(worker := NextRead(s.table, s.worker))
    case AftersHead => s.(worker := NextRead(s.table, s.worker))
    case Scan(_) => s.(worker := NextRead(s.table, s.worker))
    case Sum(_, _, _, _) => s.(worker := NextRead(s.table, s.worker))
    case Oks(_, _, _, _) => s.(worker := NextRead(s.table, s.worker))
    case _ => StepEntry(s)
  }

  /** One item of a group's list: collect it if its task has ended and was not collected. */
  function StepPoll(s: State, id: GroupId, items: seq<Item>, ids: seq<GroupId>): State {
    if items == [] then s.(worker := Visit(ids))
    else if items[0].Blocked? then Crash(s)
    else
      var c, rest := items[0].cmd, items[1..];
      if c in s.results then s.(worker := Poll(id, rest, ids))
      else if c !in s.pool then Crash(s)
      else if s.pool[c].Active? then s.(worker := Poll(id, rest, ids))
      else StepCollect(s, id, c, rest, ids)
  }

  /** The task has ended: save the dependencies and the result, or record the failure. */
  function StepCollect(s: State, id: GroupId, c: Cmd, items: seq<Item>, ids: seq<GroupId>): State
    requires c in s.pool
  {
    if s.pool[c].Succeeded? then
      s.(depsSaved := s.depsSaved + {c}, results := s.results[c := Saved], worker := Counting(id, c, items, ids))
    else
      s.(results := s.results[c := Failed], worker := Failing(id, c, items, ids))
  }

  /** The decision on one waiting entry, once its counts and flags were read. */
  function Decide(a: After, sum: int, noError: bool, todo: seq<Item>): WorkerPc {
    var stillToDo := if Internal in a.afters then sum - 1 else sum;
    if stillToDo != 0 then Scan(todo)
    else if a.action.Wake? then Locking(a, noError, todo)
    else if noError then Starting(a, todo)
    else Skipping(a, todo)
  }

  /** The steps that act on one entry of the internal group. */
  function StepEntry(s: State): State {
    match s.worker
    case Starting(a, todo) => s.(pool := s.pool[a.id := Active], worker := Dispatching(a, todo))
    case Dispatching(a, todo) => if a.action.Wake? then s else StepPlace(s, a, Removing(a, todo))
    case Skipping(a, todo) => if a.action.Wake? then s else StepPlace(s, a, SkipMarking(a, todo))
    case SkipMarking(a, todo) =>
      if a.action.Wake? then s
      else
        (match SetOk(s.table, a.action.group, false)
         case Raised(_) => Crash(s)
         case Done(t) => s.(table := t, results := s.results[a.id := NotRun], worker := SkipCounting(a, todo)))
    case SkipCounting(a, todo) =>
      if a.action.Wake? then s
      else
        (match DecCount(s.table, a.action.group)
         case Raised(_) => Crash(s)
         case Done(t) => s.(table := t, settled := s.settled + {a.id}, worker := Removing(a, todo)))
    case Locking(a, noError, todo) => s.(lock := ByWorker, worker := Notifying(a, noError, todo))
    case Notifying(a, noError, todo) =>
      s.(done := noError, lock := Free, worker := Removing(a, todo),
         main := if s.main == Waiting(a) then Notified(a) else s.main)
    case Removing(a, todo) =>
      (match RemoveItem(s.table, Internal, Blocked(a))
       case Raised(_) => Crash(s)
       case Done(t) => s.(table := t, worker := Uncounting(todo)))
    case Uncounting(todo) =>
      (match DecCount(s.table, Internal)
       case Raised(_) => Crash(s)
       case Done(t) => s.(table := t, worker := Scan(todo)))
    case _ => s
  }

  /** Move a blocked command from the internal group to the list of its own group. */
  function StepPlace(s: State, a: After, pc: WorkerPc): State
    requires a.action.Todo?
  {
    var (t, r) := AddForBlocked(s.table, a.action.group, Item.Running(a.id));
    if r.Raised? then Crash(s.(table := t))
    else s.(table := t, placed := s.placed + {a.id}, worker := pc)
  }

  /** A run: states linked by enabled events, from the initial state. */
  predicate IsRun(states: seq<State>, events: seq<Event>) {
    && |states| == |events| + 1
    && states[0] == INITIAL
    && forall i :: 0 <= i < |events| ==> Enabled(states[i], events[i]) && states[i + 1] == Step(states[i], events[i])
  }
}
