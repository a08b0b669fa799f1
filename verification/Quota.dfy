/** The bandwidth quota over whole runs of writes. */
module Quota {
  import opened Attempts
  import opened TimeQueue
  import opened TimeQueueRuns

  /** A write that no exclusion pattern matched: the hash of its path, its size in bytes, and
      the two readings of the clock, in microseconds: when the quota was tested, and the time
      recorded right after. */
  datatype Write = Write(hash: nat, size: nat, tested: nat, time: nat)

  function Sets(run: seq<Write>): (sets: seq<Timed>)
    ensures |sets| == |run| && forall i :: 0 <= i < |run| ==> sets[i] == Timed(run[i].hash, run[i].time)
  {
    seq(|run|, i requires 0 <= i < |run| => Timed(run[i].hash, run[i].time))
  }

  /** Time never goes back, and no hash is the mark of a free slot. */
  predicate Ordered(run: seq<Write>) {
    && (forall i, j :: 0 <= i < j < |run| ==> run[i].time <= run[j].tested)
    && (forall i :: 0 <= i < |run| ==> run[i].hash != 0 && run[i].tested <= run[i].time)
  }

  /** What the queue holds when write number `i` arrives. */
  function Before(size: nat, run: seq<Write>, i: nat): Ring
    requires size > 0 && i <= |run|
  {
    RingAfter(size, Sets(run)[..i])
  }

  predicate Tracked(size: nat, run: seq<Write>, i: nat)
    requires size > 0 && i < |run|
  {
    RingGet(Before(size, run, i), run[i].hash).Some?
  }

  predicate Admitted(size: nat, quota: nat, run: seq<Write>, i: nat)
    requires size > 0 && i < |run|
  {
    !Exceeds(RingGet(Before(size, run, i), run[i].hash), quota, run[i].size, run[i].tested)
  }

  /** Bytes of the writes to `h` among the first `n` that found a time and were admitted. */
  function TrackedBytes(size: nat, quota: nat, run: seq<Write>, n: nat, h: nat): nat
    requires size > 0 && n <= |run|
  {
    if n == 0 then 0
    else
      var counts := run[n - 1].hash == h && Tracked(size, run, n - 1) && Admitted(size, quota, run, n - 1);
      TrackedBytes(size, quota, run, n - 1, h) + if counts then run[n - 1].size else 0
  }

  /** Number of writes to `h` among the first `n` that found no time; they are all admitted. */
  function UntrackedWrites(size: nat, run: seq<Write>, n: nat, h: nat): nat
    requires size > 0 && n <= |run|
  {
    if n == 0 then 0
    else UntrackedWrites(size, run, n - 1, h) + if run[n - 1].hash == h && !Tracked(size, run, n - 1) then 1 else 0
  }

  /** Number of times `h` was evicted by one of the first `n` writes. */
  function Evictions(size: nat, run: seq<Write>, n: nat, h: nat): nat
    requires size > 0 && n <= |run|
  {
    if n == 0 then 0
    else
      var evicted := RingGet(Before(size, run, n - 1), h).Some? && RingGet(Before(size, run, n), h).None?;
      Evictions(size, run, n - 1, h) + if evicted then 1 else 0
  }

  function FirstTime(run: seq<Write>, n: nat, h: nat): Option<nat>
    requires n <= |run|
  {
    if n == 0 then None
    else if FirstTime(run, n - 1, h).Some? then FirstTime(run, n - 1, h)
    else if run[n - 1].hash == h then Some(run[n - 1].time)
    else None
  }

  // ----- one write -----

  lemma BeforeStep(size: nat, run: seq<Write>, n: nat)
    requires size > 0 && n < |run|
    ensures Before(size, run, n + 1) == RingSet(Before(size, run, n), run[n].hash, run[n].time)
  {
    assert Sets(run)[..n + 1][..n] == Sets(run)[..n];
  }

  /** A stored time is the last time a write to that hash arrived. */
  lemma {:induction false} StoredIsLast(size: nat, run: seq<Write>, n: nat, h: nat)
    requires size > 0 && n <= |run| && h != 0 && Ordered(run)
    ensures RingGet(Before(size, run, n), h).Some? ==> RingGet(Before(size, run, n), h) == LastTime(Sets(run), n, h)
  {
    if n > 0 {
      StoredIsLast(size, run, n - 1, h);
      WriteStores(size, run, n - 1, h);
      LastStep(run, n - 1, h);
    }
  }

  lemma LastStep(run: seq<Write>, n: nat, h: nat)
    requires n < |run|
    ensures LastTime(Sets(run), n + 1, h) == if run[n].hash == h then Some(run[n].time) else LastTime(Sets(run), n, h)
  {
  }

  lemma WriteStores(size: nat, run: seq<Write>, n: nat, h: nat)
    requires size > 0 && n < |run| && h != 0 && Ordered(run)
    ensures var r, s := Before(size, run, n), Before(size, run, n + 1);
      && (h == run[n].hash ==> RingGet(s, h) == Some(run[n].time))
      && (h != run[n].hash && RingGet(s, h).Some? ==> RingGet(s, h) == RingGet(r, h))
  {
    var sets := Sets(run);
    RingRefinesCache(size, sets[..n], h);
    RingRefinesCache(size, sets[..n + 1], h);
    AfterStep(size, sets, n);
    CacheShape(size, sets[..n]);
    SetMoves(CacheAfter(size, sets[..n]), size, run[n].hash, run[n].time);
  }

  lemma {:induction false} LastSeen(run: seq<Write>, n: nat, h: nat)
    requires n <= |run| && Ordered(run)
    ensures FirstTime(run, n, h).Some? <==> LastTime(Sets(run), n, h).Some?
    ensures FirstTime(run, n, h).Some? ==> FirstTime(run, n, h).value <= LastTime(Sets(run), n, h).value
    ensures n < |run| && FirstTime(run, n, h).Some? ==> LastTime(Sets(run), n, h).value <= run[n].tested
  {
    if n > 0 {
      LastSeen(run, n - 1, h);
    }
  }

  // ----- the bounds -----

  /** Over any run of writes on any mix of paths, the bytes admitted for a hash by comparison
      with a stored time are at most the quota times the time elapsed between the first and
      the last write to that hash (bytes a second, times in microseconds). */
  lemma {:induction false} BytesBound(size: nat, quota: nat, run: seq<Write>, n: nat, h: nat)
    requires size > 0 && n <= |run| && h != 0 && Ordered(run)
    ensures match (FirstTime(run, n, h), LastTime(Sets(run), n, h))
            case (Some(first), Some(last)) => TrackedBytes(size, quota, run, n, h) * 1_000_000 <=
              Allowance(quota, first, last)
            case _ => TrackedBytes(size, quota, run, n, h) == 0
  {
    LastSeen(run, n, h);
    if n > 0 {
      BytesBound(size, quota, run, n - 1, h);
      LastSeen(run, n - 1, h);
      if run[n - 1].hash == h {
        StoredIsLast(size, run, n - 1, h);
        if FirstTime(run, n - 1, h).Some? {
          Longer(quota, FirstTime(run, n - 1, h).value, LastTime(Sets(run), n - 1, h).value, run[n - 1].tested,
                 run[n - 1].time);
          WriteWithin(size, quota, run, n - 1, LastTime(Sets(run), n - 1, h));
        }
      }
    }
  }

  /** An admitted write is within what its path earned since the stored time. */
  lemma WriteWithin(size: nat, quota: nat, run: seq<Write>, i: nat, last: Option<nat>)
    requires size > 0 && i < |run| && last.Some? && last.value <= run[i].tested
    requires Tracked(size, run, i) ==> RingGet(Before(size, run, i), run[i].hash) == last
    ensures Tracked(size, run, i) && Admitted(size, quota, run, i) ==>
      run[i].size * 1_000_000 <= Allowance(quota, last.value, run[i].tested)
    ensures Allowance(quota, last.value, run[i].tested) >= 0
  {
  }

  /** Bytes times 1000000 that may pass between two times. */
  function Allowance(quota: int, start: int, end: int): int {
    quota * (end - start)
  }

  lemma Longer(quota: nat, first: nat, last: nat, tested: nat, now: nat)
    requires first <= last <= tested <= now
    ensures Allowance(quota, first, now) >= Allowance(quota, first, last) + Allowance(quota, last, tested)
    ensures Allowance(quota, last, tested) >= 0
  {
    assert quota * (now - first) == quota * (last - first) + quota * (tested - last) + quota * (now - tested);
  }

  /** The writes to a hash that found no stored time number its evictions, plus one when it
      is still stored: at most one plus its evictions. */
  lemma {:induction false} UntrackedBound(size: nat, run: seq<Write>, n: nat, h: nat)
    requires size > 0 && n <= |run| && h != 0 && Ordered(run)
    ensures UntrackedWrites(size, run, n, h) ==
      Evictions(size, run, n, h) + if RingGet(Before(size, run, n), h).Some? then 1 else 0
  {
    if n == 0 {
      FreshFinds(size, h);
    } else {
      UntrackedBound(size, run, n - 1, h);
      WriteStores(size, run, n - 1, h);
    }
  }

  // ----- the test as the output performs it -----

  class Gate {
    const queue: Queue?

    constructor (queue: Queue?)
      ensures this.queue == queue
    {
      this.queue := queue;
    }

    predicate Valid()
      reads this, queue, if queue == null then {} else {queue.values, queue.hashes}
    {
      queue != null ==> queue.Valid()
    }

    /** Should the write be sent? `excluded` says whether an exclusion pattern matches the path;
        the two readings of the clock are `tested` and `recorded`. */
    method ShouldWrite(path: string, size: nat, excluded: bool, tested: nat, recorded: nat) returns (yes: bool)
      requires Valid()
      requires queue != null && RingGet(queue.State(), Djb2(path)).Some? ==>
        RingGet(queue.State(), Djb2(path)).value <= tested
      modifies queue, if queue == null then {} else {queue.values, queue.hashes}
      ensures Valid()
      ensures excluded ==> !yes && (queue != null ==> queue.State() == old(queue.State()))
      ensures !excluded && queue == null ==> yes
      ensures !excluded && queue != null ==>
        && yes == !Exceeds(RingGet(old(queue.State()), Djb2(path)), queue.quota, size, tested)
        && queue.State() == RingSet(old(queue.State()), Djb2(path), recorded)
      ensures !excluded && queue != null ==>
        match RingGet(old(queue.State()), Djb2(path))
        case None => yes
        case Some(last) => yes <==> last < tested && size * 1_000_000 <= queue.quota * (tested - last)
    {
      if excluded { return false; }
      if queue == null { return true; }
      var over := queue.Overflows(path, size, tested);
      yes := !over;
      queue.Set(path, recorded);
    }
  }

  /** The hashes are those of the paths. */
  predicate From(run: seq<Write>, paths: seq<string>) {
    |paths| == |run| && forall i :: 0 <= i < |run| ==> run[i].hash == Djb2(paths[i])
  }

  /** What a write finds is not later than its test. */
  lemma FoundBefore(size: nat, run: seq<Write>, n: nat)
    requires size > 0 && n < |run| && Ordered(run)
    ensures var found := RingGet(Before(size, run, n), run[n].hash); found.Some? ==> found.value <= run[n].tested
  {
    StoredIsLast(size, run, n, run[n].hash);
    LastSeen(run, n, run[n].hash);
  }

  /** The write fits into what its path has earned since the last write to it: bytes a second, times
      in microseconds. */
  predicate Fits(quota: nat, w: Write, last: nat) {
    last < w.tested && w.size * 1_000_000 <= quota * (w.tested - last)
  }

  /** A write is admitted exactly when no time is stored for its path, or it fits into the quota. */
  lemma AdmittedExact(size: nat, quota: nat, run: seq<Write>, i: nat)
    requires size > 0 && i < |run| && Ordered(run)
    ensures Tracked(size, run, i) ==> LastTime(Sets(run), i, run[i].hash).Some?
    ensures Admitted(size, quota, run, i) <==>
      (Tracked(size, run, i) ==> Fits(quota, run[i], LastTime(Sets(run), i, run[i].hash).value))
  {
    StoredIsLast(size, run, i, run[i].hash);
  }

  lemma AllExact(size: nat, quota: nat, run: seq<Write>)
    requires size > 0 && Ordered(run)
    ensures forall i :: 0 <= i < |run| ==> FitsOrNew(size, quota, run, i) == Admitted(size, quota, run, i)
  {
    forall i | 0 <= i < |run| ensures FitsOrNew(size, quota, run, i) == Admitted(size, quota, run, i) {
      AdmittedExact(size, quota, run, i);
    }
  }

  /** No time is stored for the path, or one that the write fits after: that of the last write to it. */
  predicate FitsOrNew(size: nat, quota: nat, run: seq<Write>, i: nat)
    requires size > 0 && i < |run|
  {
    var last := LastTime(Sets(run), i, run[i].hash);
    Tracked(size, run, i) ==> last.Some? && Fits(quota, run[i], last.value)
  }

  /** A run of a gate: it admits exactly the writes that find no stored time or fit into the quota. */
  method Run(size: nat, quota: nat, run: seq<Write>, paths: seq<string>) returns (gate: Gate, admitted: seq<bool>)
    requires size > 0 && Ordered(run) && From(run, paths)
    ensures gate.queue != null && gate.Valid() && gate.queue.State() == Before(size, run, |run|)
    ensures |admitted| == |run| && forall i :: 0 <= i < |run| ==> admitted[i] == Admitted(size, quota, run, i)
    ensures forall i :: 0 <= i < |run| ==> admitted[i] == FitsOrNew(size, quota, run, i)
  {
    var queue := new Queue(size, quota);
    gate := new Gate(queue);
    admitted := [];
    for i := 0 to |run|
      invariant gate.queue == queue && queue.Valid() && queue.quota == quota && fresh(queue) && fresh(queue.values) &&
        fresh(queue.hashes)
      invariant queue.State() == Before(size, run, i)
      invariant |admitted| == i && forall k :: 0 <= k < i ==> admitted[k] == Admitted(size, quota, run, k)
    {
      var yes := Next(gate, queue, size, run, paths, i);
      admitted := admitted + [yes];
    }
    AllExact(size, quota, run);
  }

  /** One write of the run. */
  method Next(gate: Gate, queue: Queue, ghost size: nat, run: seq<Write>, paths: seq<string>, i: nat)
    returns (yes: bool)
    requires size > 0 && Ordered(run) && From(run, paths) && i < |run|
    requires gate.queue == queue && queue.Valid() && queue.State() == Before(size, run, i)
    modifies queue, queue.values, queue.hashes
    ensures queue.Valid() && queue.State() == Before(size, run, i + 1) && yes == Admitted(size, queue.quota, run, i)
  {
    FoundBefore(size, run, i);
    BeforeStep(size, run, i);
    yes := gate.ShouldWrite(paths[i], run[i].size, false, run[i].tested, run[i].time);
  }
}
