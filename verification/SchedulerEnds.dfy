/** In what order the commands of a parallel build end. */
module SchedulerEnds {
  import opened Groups
  import opened Scheduler
  import opened SchedulerInvariant
  import opened SchedulerSteps
  import opened SchedulerSafety
  import opened SchedulerLiveness
  import opened Commuting
  import M = Memoize

  // ----- the order in which commands end -----

  predicate Ends(e: Event, c: Cmd) {
    e.PoolEnd? && e.cmd == c
  }

  /** The commands whose tasks ended in the first `n` events. */
  function EndedBy(events: seq<Event>, n: nat): seq<Cmd>
    requires n <= |events|
  {
    if n == 0 then []
    else if events[n - 1].PoolEnd? then EndedBy(events, n - 1) + [events[n - 1].cmd]
    else EndedBy(events, n - 1)
  }

  predicate Busy(s: State, c: Cmd) {
    c in s.pool && s.pool[c].Active?
  }

  predicate HasEnded(pool: map<Cmd, Task>, c: Cmd) {
    c in pool && !pool[c].Active?
  }

  lemma PlacePool(s: State, a: After, pc: WorkerPc)
    requires a.action.Todo?
    ensures StepPlace(s, a, pc).pool == s.pool && StepPlace(s, a, pc).main == s.main
  {
  }

  lemma EntryPool(s: State)
    ensures !s.worker.Starting? ==> StepEntry(s).pool == s.pool
    ensures StepEntry(s).main == s.main || s.main.Waiting?
  {
    if s.worker.Dispatching? || s.worker.Skipping? {
      var a, todo := s.worker.a, s.worker.todo;
      if a.action.Todo? {
        PlacePool(s, a, if s.worker.Dispatching? then Removing(a, todo) else SkipMarking(a, todo));
      }
    }
  }

  lemma PollPool(s: State, id: GroupId, items: seq<Item>, ids: seq<GroupId>)
    ensures StepPoll(s, id, items, ids).pool == s.pool
  {
  }

  lemma WorkerPool(s: State)
    requires Enabled(s, WorkerStep)
    ensures StepWorker(s).pool == if s.worker.Starting? then s.pool[s.worker.a.id := Active] else s.pool
  {
    if s.worker.Poll? {
      PollPool(s, s.worker.id, s.worker.items, s.worker.ids);
    } else if !s.worker.Starting? {
      EntryPool(s);
    }
  }

  /** What is put into the pool was not there. */
  lemma NewInPool(s: State)
    requires Inv(s)
    ensures s.next !in s.pool
    ensures s.worker.Starting? ==> s.worker.a.id !in s.pool
  {
    PoolBelow(s, MarksOf(s.worker));
    if s.worker.Starting? {
      EntryPlace(s, s.worker.a);
    }
  }

  lemma PoolBelow(s: State, k: Marks)
    requires Core(s, k)
    ensures s.next !in s.pool
  {
  }

  /** The pool one step later. */
  function PoolAfter(s: State, e: Event): map<Cmd, Task> {
    match e
    case Run(_) => s.pool[s.next := Active]
    case PoolEnd(c, ok) => s.pool[c := if ok then Task.Succeeded else Errored]
    case WorkerStep => if s.worker.Starting? then s.pool[s.worker.a.id := Active] else s.pool
    case _ => s.pool
  }

  lemma StepPool(s: State, e: Event)
    requires Enabled(s, e)
    ensures Step(s, e).pool == PoolAfter(s, e)
  {
    if e.WorkerStep? {
      WorkerPool(s);
    }
  }

  lemma PoolEnds(s: State, e: Event, c: Cmd)
    requires Enabled(s, e) && s.next !in s.pool && (s.worker.Starting? ==> s.worker.a.id !in s.pool)
    ensures HasEnded(PoolAfter(s, e), c) <==> HasEnded(s.pool, c) || Ends(e, c)
    ensures c in s.pool ==> c in PoolAfter(s, e)
    ensures e.PoolEnd? ==> Busy(s, e.cmd)
  {
  }

  /** What event `n` does to the pool. */
  ghost predicate PoolMoves(states: seq<State>, events: seq<Event>, n: nat, c: Cmd)
    requires n < |events| < |states|
  {
    && (HasEnded(states[n + 1].pool, c) <==> HasEnded(states[n].pool, c) || Ends(events[n], c))
    && (c in states[n].pool ==> c in states[n + 1].pool)
    && (events[n].PoolEnd? ==> Busy(states[n], events[n].cmd))
  }

  ghost predicate PoolRuns(states: seq<State>, events: seq<Event>) {
    && |states| == |events| + 1 && states[0] == INITIAL
    && forall n, c :: 0 <= n < |events| ==> PoolMoves(states, events, n, c)
  }

  lemma RunMovesPool(states: seq<State>, events: seq<Event>)
    requires IsRun(states, events)
    ensures PoolRuns(states, events)
  {
    forall n, c | 0 <= n < |events| ensures PoolMoves(states, events, n, c) {
      StepMovesPool(states, events, n, c);
    }
  }

  lemma StepMovesPool(states: seq<State>, events: seq<Event>, n: nat, c: Cmd)
    requires IsRun(states, events) && n < |events|
    ensures PoolMoves(states, events, n, c)
  {
    RunKeepsInv(states, events, n);
    NewInPool(states[n]);
    StepPool(states[n], events[n]);
    PoolEnds(states[n], events[n], c);
  }

  lemma {:induction false} EndedExact(states: seq<State>, events: seq<Event>, n: nat, c: Cmd)
    requires PoolRuns(states, events) && n <= |events|
    ensures c in EndedBy(events, n) <==> HasEnded(states[n].pool, c)
  {
    if n > 0 {
      EndedExact(states, events, n - 1, c);
      assert PoolMoves(states, events, n - 1, c);
    }
  }

  lemma {:induction false} StaysInPool(states: seq<State>, events: seq<Event>, n: nat, m: nat, c: Cmd)
    requires PoolRuns(states, events) && n <= m < |states| && c in states[n].pool
    ensures c in states[m].pool
    decreases m
  {
    if n < m {
      StaysInPool(states, events, n, m - 1, c);
      assert PoolMoves(states, events, m - 1, c);
    }
  }

  /** The position since which `c` has been in the pool. */
  function Since(states: seq<State>, n: nat, c: Cmd): (k: nat)
    requires n < |states| && c in states[n].pool
    ensures k <= n && c in states[k].pool && (k > 0 ==> c !in states[k - 1].pool)
  {
    if n == 0 || c !in states[n - 1].pool then n else Since(states, n - 1, c)
  }

  lemma {:induction false} BusySince(states: seq<State>, events: seq<Event>, n: nat, c: Cmd, m: nat)
    requires PoolRuns(states, events) && n < |states| && Busy(states[n], c) && Since(states, n, c) <= m <= n
    ensures Busy(states[m], c) && Since(states, m, c) == Since(states, n, c)
    decreases n
  {
    if m < n {
      assert PoolMoves(states, events, n - 1, c);
      BusySince(states, events, n - 1, c, m);
    }
  }

  predicate NoneTwice(order: seq<Cmd>) {
    forall i, j :: 0 <= i < j < |order| ==> order[i] != order[j]
  }

  lemma {:induction false} EndedOnce(states: seq<State>, events: seq<Event>, n: nat)
    requires PoolRuns(states, events) && n <= |events|
    ensures NoneTwice(EndedBy(events, n))
  {
    if n > 0 {
      EndedOnce(states, events, n - 1);
      if events[n - 1].PoolEnd? {
        EndedExact(states, events, n - 1, events[n - 1].cmd);
        assert PoolMoves(states, events, n - 1, events[n - 1].cmd);
      }
    }
  }

  // ----- a command that was handed to the pool at once waits for nothing -----

  ghost predicate Bare(s: State, c: Cmd) {
    c < s.next && if c in s.reg then s.reg[c].need == {} else s.main.Launching? && s.main.cmd == c
  }

  lemma WorkerMain(s: State)
    requires Enabled(s, WorkerStep)
    ensures StepWorker(s).main == s.main || s.main.Waiting?
  {
    if s.worker.Poll? {
      PollEffects(s, s.worker.id, s.worker.items, s.worker.ids);
    } else {
      EntryPool(s);
    }
  }

  lemma StepBare(s: State, e: Event, c: Cmd)
    requires Fresh(s) && Enabled(s, e) && Bare(s, c)
    ensures Bare(Step(s, e), c)
  {
    StepHistory(s, e);
    if e.WorkerStep? {
      WorkerEffects(s);
      WorkerMain(s);
    }
  }

  lemma {:induction false} StaysBare(states: seq<State>, events: seq<Event>, i: nat, j: nat, c: Cmd)
    requires IsRun(states, events) && i <= j < |states| && Bare(states[i], c)
    ensures Bare(states[j], c)
    decreases j - i
  {
    if i < j {
      StaysBare(states, events, i, j - 1, c);
      FreshAt(states, events, j - 1);
      StepBare(states[j - 1], events[j - 1], c);
    }
  }

  /** A command in the pool is registered, or waits for nothing. */
  lemma PooledFacts(s: State, c: Cmd)
    requires Inv(s) && c in s.pool
    ensures c in s.reg ==> AllSaved(s.results, s.reg[c].need)
    ensures c !in s.reg ==> Bare(s, c)
  {
    PooledCore(s, MarksOf(s.worker), c);
  }

  lemma PooledCore(s: State, k: Marks, c: Cmd)
    requires Core(s, k) && c in s.pool
    ensures c in s.reg ==> AllSaved(s.results, s.reg[c].need)
    ensures c !in s.reg ==> Bare(s, c)
  {
  }

  // ----- what a command waits for has ended before it -----

  /** `c` waits for `d`, directly or through others. */
  ghost predicate Waits(reg: Regs, c: Cmd, d: Cmd) {
    exists path :: |path| > 1 && path[0] == c && path[|path| - 1] == d && WaitsAlong(reg, path)
  }

  lemma NeedDone(states: seq<State>, events: seq<Event>, n: nat, c: Cmd, d: Cmd)
    requires IsRun(states, events) && n < |states| && c in states[n].pool
    requires var reg := states[|events|].reg; c in reg && d in reg[c].need
    ensures SchedulerSafety.Succeeded(states[n], d)
  {
    RunKeepsInv(states, events, n);
    PooledFacts(states[n], c);
    if c in states[n].reg {
      RunHistory(states, events, n, |events|);
      SavedSucceeded(states[n], d);
    } else {
      StaysBare(states, events, n, |events|, c);
    }
  }

  lemma {:induction false} PathDone(states: seq<State>, events: seq<Event>, n: nat, path: seq<Cmd>, k: nat)
    requires IsRun(states, events) && n < |states| && WaitsAlong(states[|events|].reg, path)
    requires 0 < k < |path| && path[0] in states[n].pool
    ensures SchedulerSafety.Succeeded(states[n], path[k])
  {
    if k > 1 {
      PathDone(states, events, n, path, k - 1);
    }
    NeedDone(states, events, n, path[k - 1], path[k]);
  }

  lemma WaitedForHasEnded(states: seq<State>, events: seq<Event>, n: nat, c: Cmd, d: Cmd)
    requires IsRun(states, events) && n < |states| && c in states[n].pool
    requires Waits(states[|events|].reg, c, d)
    ensures HasEnded(states[n].pool, d)
  {
    var path :| |path| > 1 && path[0] == c && path[|path| - 1] == d && WaitsAlong(states[|events|].reg, path);
    PathDone(states, events, n, path, |path| - 1);
  }

  // ----- commands that keep apart -----

  /** What numbered commands are: a command line, and a footprint that it keeps to. */
  datatype Jobs = Jobs(world: M.World, text: Cmd -> M.Command, footprint: Cmd -> Footprint)

  /** Any two commands have footprints apart, unless the later one waits for the earlier. */
  ghost predicate Separate(j: Jobs, t: State) {
    && (forall c :: c in t.pool ==> Confined(j.world, j.text(c), j.footprint(c)))
    && (forall c, d :: c in t.pool && d in t.pool && d < c ==>
         Apart(j.footprint(c), j.footprint(d)) || Waits(t.reg, c, d))
  }

  /** Tasks that are at work at the same time have footprints apart. */
  lemma BusyApart(states: seq<State>, events: seq<Event>, n: nat, j: Jobs, c: Cmd, d: Cmd)
    requires IsRun(states, events) && n < |states| && Separate(j, states[|events|])
    requires c != d && Busy(states[n], c) && Busy(states[n], d)
    ensures Apart(j.footprint(c), j.footprint(d))
  {
    RunMovesPool(states, events);
    StaysInPool(states, events, n, |events|, c);
    StaysInPool(states, events, n, |events|, d);
    var later, earlier := if c < d then d else c, if c < d then c else d;
    if Waits(states[|events|].reg, later, earlier) {
      WaitedForHasEnded(states, events, n, later, earlier);
    }
  }

  /** A command that ends now commutes with every later one that has ended before. */
  lemma EndsInPlace(states: seq<State>, events: seq<Event>, n: nat, j: Jobs)
    requires IsRun(states, events) && n < |events| && events[n].PoolEnd? && Separate(j, states[|events|])
    ensures MayMove(j.world, j.text, EndedBy(events, n), events[n].cmd)
  {
    var d := events[n].cmd;
    RunMovesPool(states, events);
    StaysInPool(states, events, n, |events|, d);
    forall c | c in EndedBy(events, n) && c >= d ensures Commute(j.world, j.text(c), j.text(d)) {
      EndedExact(states, events, n, c);
      StaysInPool(states, events, n, |events|, c);
      if Waits(states[|events|].reg, c, d) {
        WaitedForHasEnded(states, events, n, c, d);
      }
      ApartCommute(j.world, j.text(c), j.text(d), j.footprint(c), j.footprint(d));
    }
  }

  lemma SortableMore(w: M.World, text: Cmd -> M.Command, order: seq<Cmd>, c: Cmd)
    requires Sortable(w, text, order) && MayMove(w, text, order, c)
    ensures Sortable(w, text, order + [c])
  {
    var more := order + [c];
    forall n | 0 <= n < |more| ensures MayMove(w, text, more[..n], more[n]) {
      assert more[..n] == order[..n];
    }
  }

  lemma {:induction false} EndsSortably(states: seq<State>, events: seq<Event>, n: nat, j: Jobs)
    requires IsRun(states, events) && n <= |events| && Separate(j, states[|events|])
    ensures Sortable(j.world, j.text, EndedBy(events, n))
  {
    if n > 0 {
      EndsSortably(states, events, n - 1, j);
      if events[n - 1].PoolEnd? {
        EndsInPlace(states, events, n - 1, j);
        SortableMore(j.world, j.text, EndedBy(events, n - 1), events[n - 1].cmd);
      }
    }
  }

  /** When nothing is pending, what is registered and was not held back has ended. */
  lemma DrainedEnded(t: State, c: Cmd)
    requires Inv(t) && !Pending(t) && forall d :: d in t.results ==> t.results[d].Saved?
    ensures HasEnded(t.pool, c) <==> c in t.reg
  {
    DrainedCore(t, MarksOf(t.worker), c);
  }

  lemma DrainedCore(t: State, k: Marks, c: Cmd)
    requires Core(t, k) && !Pending(t) && forall d :: d in t.results ==> t.results[d].Saved?
    ensures HasEnded(t.pool, c) <==> c in t.reg
  {
  }
}
