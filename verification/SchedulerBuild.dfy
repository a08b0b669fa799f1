/** A parallel build, whose tasks overlap, against a serial one. */
module SchedulerBuild {
  import opened Attempts
  import opened Groups
  import opened Scheduler
  import opened SchedulerSteps
  import opened SchedulerLiveness
  import opened SchedulerEnds
  import opened SchedulerVerdicts
  import opened Commuting
  import M = Memoize

  // ----- the files during a run -----

  /** What a task has read: each path at some moment since it was handed to the pool; a path that
      it may write itself, as it was at first. */
  ghost predicate Views(states: seq<State>, fs: seq<M.Files>, f: Footprint, c: Cmd, n: nat, view: M.Files)
    requires n < |states| == |fs| && c in states[n].pool
  {
    forall p :: p in f.read ==> ReadAt(states, fs, f, c, n, view, p)
  }

  ghost predicate ReadAt(states: seq<State>, fs: seq<M.Files>, f: Footprint, c: Cmd, n: nat, view: M.Files, p: M.Path)
    requires n < |states| == |fs| && c in states[n].pool
  {
    var k := Since(states, n, c);
    exists m :: k <= m <= n && (p in f.written ==> m == k) && Look(view, p) == Look(fs[m], p)
  }

  /** What a task leaves of the paths that it may write: what its run writes, and the others as it
      found them. */
  ghost predicate Leaves(w: M.World, text: M.Command, f: Footprint, view: M.Files, before: M.Files, after: M.Files) {
    var writes := w.exec(text, view).writes;
    forall p :: p in f.written ==> Look(after, p) == if p in writes then Some(writes[p]) else Look(before, p)
  }

  /** One step of the files. Tasks at work may do anything to the paths that they may write, and a
      task that ends leaves them as its run would. */
  ghost predicate PlaysAt(j: Jobs, states: seq<State>, events: seq<Event>, fs: seq<M.Files>, n: nat)
    requires n < |events| && |states| == |events| + 1 == |fs|
  {
    && (forall p :: Look(fs[n + 1], p) != Look(fs[n], p) ==> Touched(j, states[n], p))
    && (events[n].PoolEnd? && events[n].cmd in states[n].pool ==>
          var c := events[n].cmd;
          exists view :: Views(states, fs, j.footprint(c), c, n, view)
            && Leaves(j.world, j.text(c), j.footprint(c), view, fs[Since(states, n, c)], fs[n + 1]))
  }

  /** A task at work may write the path. */
  ghost predicate Touched(j: Jobs, s: State, p: M.Path) {
    exists c :: Busy(s, c) && p in j.footprint(c).written
  }

  /** The files in each state of a run. */
  ghost predicate Plays(j: Jobs, states: seq<State>, events: seq<Event>, fs: seq<M.Files>) {
    && |states| == |events| + 1 == |fs|
    && forall n :: 0 <= n < |events| ==> PlaysAt(j, states, events, fs, n)
  }

  // ----- the files of a serial run of the commands that have ended -----

  function Base(j: Jobs, files: M.Files, events: seq<Event>, n: nat): M.Files
    requires n <= |events|
  {
    Built(j.world, j.text, files, EndedBy(events, n))
  }

  lemma BaseStep(j: Jobs, files: M.Files, events: seq<Event>, n: nat)
    requires n < |events|
    ensures Base(j, files, events, n + 1) ==
      if events[n].PoolEnd? then M.After(j.world, Base(j, files, events, n), j.text(events[n].cmd))
        else Base(j, files, events, n)
  {
    if events[n].PoolEnd? {
      BuiltMore(j.world, j.text, files, EndedBy(events, n), events[n].cmd);
    }
  }

  lemma Unwritten(w: M.World, c: M.Command, f: Footprint, files: M.Files, p: M.Path)
    requires Confined(w, c, f) && p !in f.written
    ensures Look(M.After(w, files, c), p) == Look(files, p)
  {
    assert w.exec(c, files).writes.Keys <= f.written;
  }

  lemma OtherEnds(j: Jobs, states: seq<State>, events: seq<Event>, files: M.Files, n: nat, c: Cmd, p: M.Path)
    requires IsRun(states, events) && PoolRuns(states, events) && Separate(j, states[|events|]) && n < |events| &&
      events[n].PoolEnd?
    requires Busy(states[n], c) && Busy(states[n + 1], c) && p in j.footprint(c).read + j.footprint(c).written
    ensures var d := events[n].cmd;
      Look(M.After(j.world, Base(j, files, events, n), j.text(d)), p) == Look(Base(j, files, events, n), p)
  {
    var d := events[n].cmd;
    assert PoolMoves(states, events, n, c);
    BusyApart(states, events, n, j, c, d);
    StaysInPool(states, events, n, |events|, d);
    Unwritten(j.world, j.text(d), j.footprint(d), Base(j, files, events, n), p);
  }

  ghost predicate Unmoved(j: Jobs, files: M.Files, events: seq<Event>, n: nat, p: M.Path)
    requires n < |events|
  {
    Look(Base(j, files, events, n), p) == Look(Base(j, files, events, n + 1), p)
  }

  lemma BaseKept(j: Jobs, states: seq<State>, events: seq<Event>, files: M.Files, n: nat, c: Cmd, p: M.Path)
    requires IsRun(states, events) && PoolRuns(states, events) && Separate(j, states[|events|]) && n < |events|
    requires Busy(states[n], c) && Busy(states[n + 1], c) && p in j.footprint(c).read + j.footprint(c).written
    ensures Unmoved(j, files, events, n, p)
  {
    BaseStep(j, files, events, n);
    if events[n].PoolEnd? {
      OtherEnds(j, states, events, files, n, c, p);
    }
  }

  lemma {:induction false} UnmovedAll(j: Jobs, files: M.Files, events: seq<Event>, m: nat, n: nat, p: M.Path)
    requires m <= n <= |events| && forall i :: m <= i < n ==> Unmoved(j, files, events, i, p)
    ensures Look(Base(j, files, events, m), p) == Look(Base(j, files, events, n), p)
    decreases n
  {
    if m < n {
      UnmovedAll(j, files, events, m, n - 1, p);
      assert Unmoved(j, files, events, n - 1, p);
    }
  }

  /** While a task is at work, no command that ends writes what it may read or write. */
  lemma BaseStays(j: Jobs, states: seq<State>, events: seq<Event>, files: M.Files, n: nat, c: Cmd, m: nat, p: M.Path)
    requires IsRun(states, events) && PoolRuns(states, events) && Separate(j, states[|events|]) && n < |states|
    requires Busy(states[n], c) && Since(states, n, c) <= m <= n && p in j.footprint(c).read + j.footprint(c).written
    ensures Look(Base(j, files, events, m), p) == Look(Base(j, files, events, n), p)
  {
    forall i | m <= i < n ensures Unmoved(j, files, events, i, p) {
      BusySince(states, events, n, c, i);
      BusySince(states, events, n, c, i + 1);
      BaseKept(j, states, events, files, i, c, p);
    }
    UnmovedAll(j, files, events, m, n, p);
  }

  // ----- the files agree with it wherever nobody is at work -----

  ghost predicate Settled(j: Jobs, states: seq<State>, events: seq<Event>, fs: seq<M.Files>, n: nat)
    requires n <= |events| && |states| == |events| + 1 == |fs|
  {
    forall p :: !Touched(j, states[n], p) ==> Look(fs[n], p) == Look(Base(j, fs[0], events, n), p)
  }

  /** No other task may write what one at work may read or write. */
  lemma OthersKeepOff(j: Jobs, states: seq<State>, events: seq<Event>, n: nat, c: Cmd, p: M.Path)
    requires IsRun(states, events) && PoolRuns(states, events) && Separate(j, states[|events|]) && n < |states|
    requires Busy(states[n], c) && p in j.footprint(c).read + j.footprint(c).written
    ensures forall d :: Busy(states[n], d) && p in j.footprint(d).written ==> d == c
  {
    forall d | Busy(states[n], d) && d != c ensures p !in j.footprint(d).written {
      BusyApart(states, events, n, j, c, d);
    }
  }

  lemma JustDispatched(states: seq<State>, events: seq<Event>, n: nat, c: Cmd)
    requires IsRun(states, events) && PoolRuns(states, events) && n < |events| && c !in states[n].pool &&
      c in states[n + 1].pool
    ensures Busy(states[n + 1], c) && !events[n].PoolEnd? && forall d :: Busy(states[n], d) ==> Busy(states[n + 1], d)
  {
    StepPool(states[n], events[n]);
  }

  /** What a task may read or write is settled when it is handed to the pool. */
  lemma SettledAtFirst(j: Jobs, states: seq<State>, events: seq<Event>, fs: seq<M.Files>, n: nat, c: Cmd, p: M.Path)
    requires IsRun(states, events) && PoolRuns(states, events) && Separate(j, states[|events|]) &&
      Plays(j, states, events, fs) && n < |states|
    requires c in states[n].pool && p in j.footprint(c).read + j.footprint(c).written
    requires var k := Since(states, n, c); k > 0 ==> Settled(j, states, events, fs, k - 1)
    ensures var k := Since(states, n, c); Look(fs[k], p) == Look(Base(j, fs[0], events, k), p)
  {
    var k := Since(states, n, c);
    if k > 0 {
      JustDispatched(states, events, k - 1, c);
      OthersKeepOff(j, states, events, k, c, p);
      BaseStep(j, fs[0], events, k - 1);
      assert !Touched(j, states[k - 1], p);
      assert PlaysAt(j, states, events, fs, k - 1);
    }
  }

  lemma SettledMeanwhile(j: Jobs, states: seq<State>, events: seq<Event>, fs: seq<M.Files>, n: nat, c: Cmd, m: nat,
                         p: M.Path)
    requires IsRun(states, events) && PoolRuns(states, events) && Separate(j, states[|events|]) &&
      Plays(j, states, events, fs) && n < |states|
    requires Busy(states[n], c) && Since(states, n, c) <= m <= n && Settled(j, states, events, fs, m)
    requires p in j.footprint(c).read && p !in j.footprint(c).written
    ensures Look(fs[m], p) == Look(Base(j, fs[0], events, n), p)
  {
    BusySince(states, events, n, c, m);
    OthersKeepOff(j, states, events, m, c, p);
    assert !Touched(j, states[m], p);
    BaseStays(j, states, events, fs[0], n, c, m, p);
  }

  ghost predicate SettledUpTo(j: Jobs, states: seq<State>, events: seq<Event>, fs: seq<M.Files>, n: nat)
    requires n <= |events| && |states| == |events| + 1 == |fs|
  {
    forall m :: 0 <= m <= n ==> Settled(j, states, events, fs, m)
  }

  /** Whenever a task has read its files, it has read what the serial run would read. */
  lemma ViewIsBase(j: Jobs, states: seq<State>, events: seq<Event>, fs: seq<M.Files>, n: nat, c: Cmd, view: M.Files)
    requires IsRun(states, events) && PoolRuns(states, events) && Separate(j, states[|events|]) &&
      Plays(j, states, events, fs) && n <= |events|
    requires SettledUpTo(j, states, events, fs, n) && Busy(states[n], c) &&
      Views(states, fs, j.footprint(c), c, n, view)
    ensures Same(view, Base(j, fs[0], events, n), j.footprint(c).read)
  {
    var f, k := j.footprint(c), Since(states, n, c);
    forall p | p in f.read ensures Look(view, p) == Look(Base(j, fs[0], events, n), p) {
      assert ReadAt(states, fs, f, c, n, view, p);
      var m :| k <= m <= n && (p in f.written ==> m == k) && Look(view, p) == Look(fs[m], p);
      if p in f.written {
        SettledAtFirst(j, states, events, fs, n, c, p);
        BaseStays(j, states, events, fs[0], n, c, k, p);
      } else {
        SettledMeanwhile(j, states, events, fs, n, c, m, p);
      }
    }
  }

  /** The end of a task is what the serial run does next. */
  lemma EndSettles(j: Jobs, states: seq<State>, events: seq<Event>, fs: seq<M.Files>, n: nat, p: M.Path)
    requires IsRun(states, events) && PoolRuns(states, events) && Separate(j, states[|events|]) &&
      Plays(j, states, events, fs)
    requires n < |events| && events[n].PoolEnd? && SettledUpTo(j, states, events, fs, n)
    requires p in j.footprint(events[n].cmd).written
    ensures Look(fs[n + 1], p) == Look(M.After(j.world, Base(j, fs[0], events, n), j.text(events[n].cmd)), p)
  {
    var c, base := events[n].cmd, Base(j, fs[0], events, n);
    var k := Since(states, n, c);
    assert PlaysAt(j, states, events, fs, n);
    var view :| Views(states, fs, j.footprint(c), c, n, view)
      && Leaves(j.world, j.text(c), j.footprint(c), view, fs[k], fs[n + 1]);
    ViewIsBase(j, states, events, fs, n, c, view);
    StaysInPool(states, events, n, |events|, c);
    assert j.world.exec(j.text(c), view).writes == j.world.exec(j.text(c), base).writes;
    SettledAtFirst(j, states, events, fs, n, c, p);
    BaseStays(j, states, events, fs[0], n, c, k, p);
  }

  lemma StillTouched(j: Jobs, states: seq<State>, events: seq<Event>, n: nat, p: M.Path)
    requires IsRun(states, events) && PoolRuns(states, events) && n < |events| && Touched(j, states[n], p)
    requires !(events[n].PoolEnd? && p in j.footprint(events[n].cmd).written)
    ensures Touched(j, states[n + 1], p)
  {
    var c :| Busy(states[n], c) && p in j.footprint(c).written;
    assert PoolMoves(states, events, n, c);
    assert Busy(states[n + 1], c);
  }

  lemma StepSettles(j: Jobs, states: seq<State>, events: seq<Event>, fs: seq<M.Files>, n: nat)
    requires IsRun(states, events) && PoolRuns(states, events) && Separate(j, states[|events|]) &&
      Plays(j, states, events, fs)
    requires n < |events| && SettledUpTo(j, states, events, fs, n)
    ensures Settled(j, states, events, fs, n + 1)
  {
    BaseStep(j, fs[0], events, n);
    assert PlaysAt(j, states, events, fs, n);
    var t, files, base := states[n + 1], fs[n + 1], Base(j, fs[0], events, n + 1);
    forall p | !Touched(j, t, p) ensures Look(files, p) == Look(base, p) {
      if events[n].PoolEnd? && p in j.footprint(events[n].cmd).written {
        EndSettles(j, states, events, fs, n, p);
      } else {
        if Touched(j, states[n], p) {
          StillTouched(j, states, events, n, p);
        }
        assert Settled(j, states, events, fs, n);
        if events[n].PoolEnd? {
          StaysInPool(states, events, n, |events|, events[n].cmd);
          Unwritten(j.world, j.text(events[n].cmd), j.footprint(events[n].cmd), Base(j, fs[0], events, n), p);
        }
      }
    }
  }

  lemma {:induction false} AllSettled(j: Jobs, states: seq<State>, events: seq<Event>, fs: seq<M.Files>, n: nat)
    requires IsRun(states, events) && PoolRuns(states, events) && Separate(j, states[|events|]) &&
      Plays(j, states, events, fs) && n <= |events|
    ensures SettledUpTo(j, states, events, fs, n)
  {
    if n > 0 {
      AllSettled(j, states, events, fs, n - 1);
      StepSettles(j, states, events, fs, n - 1);
    } else {
      assert Built(j.world, j.text, fs[0], []) == fs[0];
    }
  }

  // ----- the theorem -----

  /** A parallel run, in which tasks overlap and read and write as they go, whose commands interfere
      only along "after": wherever no task is at work, the files are those that a serial build
      leaves which runs the commands that have ended in the order in which they were asked for. */
  lemma ParallelIsSerial(j: Jobs, states: seq<State>, events: seq<Event>, fs: seq<M.Files>)
    requires IsRun(states, events) && Separate(j, states[|events|]) && Plays(j, states, events, fs)
    ensures var serial := M.FullBuild(j.world, fs[0], Lines(j.text, InOrder(EndedBy(events, |events|))));
      forall p :: !Touched(j, states[|events|], p) ==> Look(fs[|events|], p) == Look(serial, p)
  {
    RunMovesPool(states, events);
    AllSettled(j, states, events, fs, |events|);
    EndsSortably(states, events, |events|, j);
    OrderMakesNoDifference(j.world, j.text, fs[0], EndedBy(events, |events|));
    assert Settled(j, states, events, fs, |events|);
  }

  /** Once nothing is pending and no task has failed, every command that was registered has run,
      once, and the files are exactly those of the serial build. */
  lemma WholeBuild(j: Jobs, states: seq<State>, events: seq<Event>, fs: seq<M.Files>)
    requires IsRun(states, events) && Separate(j, states[|events|]) && Plays(j, states, events, fs)
    requires !Pending(states[|events|]) && forall n :: 0 <= n < |events| && events[n].PoolEnd? ==> events[n].ok
    ensures var order := EndedBy(events, |events|);
      && (forall c :: c in order <==> c in states[|events|].reg) && NoneTwice(order)
      && Ascending(InOrder(order)) && multiset(InOrder(order)) == multiset(order)
      && fs[|events|] == M.FullBuild(j.world, fs[0], Lines(j.text, InOrder(order)))
  {
    RunMovesPool(states, events);
    var t, order := states[|events|], EndedBy(events, |events|);
    RunKeepsInv(states, events, |events|);
    NoFailure(states, events, |events|);
    forall c ensures c in order <==> c in t.reg {
      EndedExact(states, events, |events|, c);
      DrainedEnded(t, c);
    }
    EndedOnce(states, events, |events|);
    InOrderSorts(order);
    ParallelIsSerial(j, states, events, fs);
    SameFiles(fs[|events|], M.FullBuild(j.world, fs[0], Lines(j.text, InOrder(order))));
  }

  lemma SameFiles(a: M.Files, b: M.Files)
    requires forall p :: Look(a, p) == Look(b, p)
    ensures a == b
  {
    forall p ensures p in a <==> p in b {
      assert Look(a, p) == Look(b, p);
    }
    forall p | p in a ensures a[p] == b[p] {
      assert Look(a, p) == Look(b, p);
    }
  }

  // ----- tasks that read when they are dispatched and write when they end -----

  function Deferred(j: Jobs, states: seq<State>, events: seq<Event>, files: M.Files, n: nat): M.Files
    requires n <= |events| < |states|
  {
    if n == 0 then files
    else
      var before := Deferred(j, states, events, files, n - 1);
      if events[n - 1].PoolEnd? && events[n - 1].cmd in states[n - 1].pool then
        var c := events[n - 1].cmd;
        before + j.world.exec(j.text(c), Deferred(j, states, events, files, Since(states, n - 1, c))).writes
      else before
  }

  lemma {:induction false} DeferredIsBase(j: Jobs, states: seq<State>, events: seq<Event>, files: M.Files, n: nat)
    requires IsRun(states, events) && PoolRuns(states, events) && Separate(j, states[|events|]) && n <= |events|
    ensures Deferred(j, states, events, files, n) == Base(j, files, events, n)
  {
    if n == 0 {
      assert Built(j.world, j.text, files, []) == files;
    } else {
      DeferredIsBase(j, states, events, files, n - 1);
      BaseStep(j, files, events, n - 1);
      if events[n - 1].PoolEnd? {
        var c := events[n - 1].cmd;
        var k := Since(states, n - 1, c);
        DeferredIsBase(j, states, events, files, k);
        StaysInPool(states, events, n - 1, |events|, c);
        forall p | p in j.footprint(c).read
          ensures Look(Base(j, files, events, k), p) == Look(Base(j, files, events, n - 1), p) {
          BaseStays(j, states, events, files, n - 1, c, k, p);
        }
        assert Same(Base(j, files, events, k), Base(j, files, events, n - 1), j.footprint(c).read);
      }
    }
  }

  /** Such a run of the files is one of those that the theorem speaks of. */
  lemma DeferredPlays(j: Jobs, states: seq<State>, events: seq<Event>, files: M.Files)
    requires IsRun(states, events) && Separate(j, states[|events|])
    ensures Plays(j, states, events, seq(|states|, n requires 0 <= n < |states| =>
      Deferred(j, states, events, files, n)))
  {
    RunMovesPool(states, events);
    var fs := seq(|states|, n requires 0 <= n < |states| => Deferred(j, states, events, files, n));
    forall n | 0 <= n < |events| ensures PlaysAt(j, states, events, fs, n) {
      DeferredStep(j, states, events, files, fs, n);
    }
  }

  lemma DeferredStep(j: Jobs, states: seq<State>, events: seq<Event>, files: M.Files, fs: seq<M.Files>, n: nat)
    requires IsRun(states, events) && PoolRuns(states, events) && Separate(j, states[|events|]) && n < |events| &&
      |fs| == |states|
    requires forall m :: 0 <= m < |fs| ==> fs[m] == Deferred(j, states, events, files, m)
    ensures PlaysAt(j, states, events, fs, n)
  {
    if events[n].PoolEnd? {
      var c := events[n].cmd;
      var k, f := Since(states, n, c), j.footprint(c);
      StaysInPool(states, events, n, |events|, c);
      var writes := j.world.exec(j.text(c), fs[k]).writes;
      assert writes.Keys <= f.written && fs[n + 1] == fs[n] + writes;
      assert Busy(states[n], c);
      forall p | p in f.read ensures ReadAt(states, fs, f, c, n, fs[k], p) {
      }
      forall p | p in f.written ensures Look(fs[n + 1], p) == if p in writes then Some(writes[p]) else Look(fs[k], p) {
        DeferredIsBase(j, states, events, files, n);
        DeferredIsBase(j, states, events, files, k);
        BaseStays(j, states, events, files, n, c, k, p);
      }
      assert Views(states, fs, f, c, n, fs[k]) && Leaves(j.world, j.text(c), f, fs[k], fs[k], fs[n + 1]);
    }
  }
}
