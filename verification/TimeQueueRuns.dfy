/** Runs of the time queue: how long a key stays, and in what order keys leave. */
module TimeQueueRuns {
  import opened Attempts
  import opened TimeQueue

  /** The cache after the first settings of a run. */
  function CacheAfter(capacity: nat, sets: seq<Timed>): seq<Timed> {
    if sets == [] then [] else
      var last := sets[|sets| - 1];
      CacheSet(CacheAfter(capacity, sets[..|sets| - 1]), capacity, last.hash, last.time)
  }

  function RingAfter(size: nat, sets: seq<Timed>): (r: Ring)
    requires size > 0
    ensures Sound(r) && |r.hashes| == size
  {
    if sets == [] then Ring(seq(size, _ => 0), seq(size, _ => 0), 0)
    else RingSet(RingAfter(size, sets[..|sets| - 1]), sets[|sets| - 1].hash, sets[|sets| - 1].time)
  }

  /** The ring refines the cache along every run of settings of nonzero hashes: lookups agree
      for every hash. */
  lemma {:induction false} RingRefinesCache(size: nat, sets: seq<Timed>, h: nat)
    requires size > 0 && h != 0 && forall i :: 0 <= i < |sets| ==> sets[i].hash != 0
    ensures Holds(RingAfter(size, sets), CacheAfter(size, sets))
    ensures RingGet(RingAfter(size, sets), h) == CacheGet(CacheAfter(size, sets), h)
  {
    if sets == [] {
      EmptyHolds(size);
    } else {
      var n := |sets| - 1;
      RingRefinesCache(size, sets[..n], h);
      SetRefines(RingAfter(size, sets[..n]), CacheAfter(size, sets[..n]), sets[n].hash, sets[n].time);
    }
    GetRefines(RingAfter(size, sets), CacheAfter(size, sets), h);
  }

  predicate Missed(capacity: nat, sets: seq<Timed>, i: nat)
    requires i < |sets|
  {
    !Present(CacheAfter(capacity, sets[..i]), sets[i].hash)
  }

  /** Settings in `lo..hi` of a hash that was not stored. */
  function Misses(capacity: nat, sets: seq<Timed>, lo: nat, hi: nat): nat
    requires hi <= |sets|
    decreases hi
  {
    if lo >= hi then 0 else Misses(capacity, sets, lo, hi - 1) + if Missed(capacity, sets, hi - 1) then 1 else 0
  }

  /** The last time set for `h` before `n`. */
  function LastTime(sets: seq<Timed>, n: nat, h: nat): Option<nat>
    requires n <= |sets|
  {
    if n == 0 then None else if sets[n - 1].hash == h then Some(sets[n - 1].time) else LastTime(sets, n - 1, h)
  }

  // ----- one setting -----

  lemma IndexOfKept(q: seq<Timed>, h: nat, k: nat)
    requires Distinct(q) && k < |q| && q[k].hash == h
    ensures Present(q, h) && IndexIn(q, h) == k
  {
    assert q[IndexIn(q, h)].hash == h || IndexIn(q, h) == |q|;
  }

  /** A hit keeps every entry's place; a miss puts the new entry last and, in a full cache,
      drops the first. */
  lemma SetMoves(q: seq<Timed>, capacity: nat, h: nat, now: nat)
    requires Distinct(q) && |q| <= capacity && capacity > 0
    ensures var s := CacheSet(q, capacity, h, now);
      && Distinct(s) && |s| <= capacity
      && (Present(q, h) ==> |s| == |q| && forall j :: 0 <= j < |q| ==>
           s[j].hash == q[j].hash && (q[j].hash != h ==> s[j] == q[j]))
      && (!Present(q, h) && |q| < capacity ==> s == q + [Timed(h, now)])
      && (!Present(q, h) && |q| == capacity ==> s == q[1..] + [Timed(h, now)])
      && CacheGet(s, h) == Some(now)
      && (forall g :: g != h && Present(s, g) ==> Present(q, g) && CacheGet(s, g) == CacheGet(q, g))
  {
    var s := CacheSet(q, capacity, h, now);
    var k := if Present(q, h) then IndexIn(q, h) else |s| - 1;
    IndexOfKept(s, h, k);
    forall g | g != h && Present(s, g) ensures Present(q, g) && CacheGet(s, g) == CacheGet(q, g) {
      var j := IndexIn(s, g);
      var i := if !Present(q, h) && |q| == capacity then j + 1 else j;
      assert q[i] == s[j];
      IndexOfKept(q, g, i);
    }
  }

  lemma {:induction false} CacheShape(capacity: nat, sets: seq<Timed>)
    requires capacity > 0
    ensures Distinct(CacheAfter(capacity, sets)) && |CacheAfter(capacity, sets)| <= capacity
  {
    if sets != [] {
      var n := |sets| - 1;
      CacheShape(capacity, sets[..n]);
      SetMoves(CacheAfter(capacity, sets[..n]), capacity, sets[n].hash, sets[n].time);
    }
  }

  lemma AfterStep(capacity: nat, sets: seq<Timed>, n: nat)
    requires n < |sets|
    ensures CacheAfter(capacity, sets[..n + 1]) ==
      CacheSet(CacheAfter(capacity, sets[..n]), capacity, sets[n].hash, sets[n].time)
  {
    assert sets[..n + 1][..n] == sets[..n];
  }

  // ----- first in, first out -----

  /** The hash is stored while fewer than `capacity` misses have followed it, in the place that
      they leave it in. */
  predicate Placed(q: seq<Timed>, capacity: nat, h: nat, m: nat) {
    && (Present(q, h) <==> m < capacity)
    && (Present(q, h) ==> |q| >= m + 1 && IndexIn(q, h) == |q| - 1 - m)
  }

  lemma InsertedLast(q: seq<Timed>, capacity: nat, h: nat, now: nat)
    requires capacity > 0 && Distinct(q) && |q| <= capacity && !Present(q, h)
    ensures Placed(CacheSet(q, capacity, h, now), capacity, h, 0)
  {
    SetMoves(q, capacity, h, now);
    var s := CacheSet(q, capacity, h, now);
    IndexOfKept(s, h, |s| - 1);
  }

  lemma {:induction false} StaysPlaced(capacity: nat, sets: seq<Timed>, j: nat, n: nat)
    requires capacity > 0 && j < n <= |sets| && Missed(capacity, sets, j)
    requires forall i :: j < i < n && sets[i].hash == sets[j].hash ==> !Missed(capacity, sets, i)
    ensures Placed(CacheAfter(capacity, sets[..n]), capacity, sets[j].hash, Misses(capacity, sets, j + 1, n))
    decreases n
  {
    var before := CacheAfter(capacity, sets[..n - 1]);
    CacheShape(capacity, sets[..n - 1]);
    AfterStep(capacity, sets, n - 1);
    if n == j + 1 {
      InsertedLast(before, capacity, sets[j].hash, sets[j].time);
    } else {
      StaysPlaced(capacity, sets, j, n - 1);
      StaysStep(before, capacity, sets[j].hash, Misses(capacity, sets, j + 1, n - 1), sets[n - 1]);
    }
  }

  /** A lookup that finds a hash gives the last time set for it. */
  lemma {:induction false} FoundIsLast(capacity: nat, sets: seq<Timed>, n: nat, h: nat)
    requires capacity > 0 && n <= |sets| && Present(CacheAfter(capacity, sets[..n]), h)
    ensures CacheGet(CacheAfter(capacity, sets[..n]), h) == LastTime(sets, n, h)
  {
    if n > 0 {
      CacheShape(capacity, sets[..n - 1]);
      AfterStep(capacity, sets, n - 1);
      SetMoves(CacheAfter(capacity, sets[..n - 1]), capacity, sets[n - 1].hash, sets[n - 1].time);
      if sets[n - 1].hash != h {
        FoundIsLast(capacity, sets, n - 1, h);
      }
    }
  }

  /** A key inserted by setting number `j` stays until exactly `capacity` misses have followed,
      whatever hits come between; while it stays, a lookup gives the last time set for it. */
  lemma {:induction false} StaysFor(capacity: nat, sets: seq<Timed>, j: nat, n: nat)
    requires capacity > 0 && j < n <= |sets| && Missed(capacity, sets, j)
    requires forall i :: j < i < n && sets[i].hash == sets[j].hash ==> !Missed(capacity, sets, i)
    ensures var q, h, m := CacheAfter(capacity, sets[..n]), sets[j].hash, Misses(capacity, sets, j + 1, n);
      && (Present(q, h) <==> m < capacity)
      && (Present(q, h) ==> |q| >= m + 1 && IndexIn(q, h) == |q| - 1 - m && CacheGet(q, h) == LastTime(sets, n, h))
  {
    StaysPlaced(capacity, sets, j, n);
    if Present(CacheAfter(capacity, sets[..n]), sets[j].hash) {
      FoundIsLast(capacity, sets, n, sets[j].hash);
    }
  }

  lemma StaysStep(q: seq<Timed>, capacity: nat, h: nat, m: nat, set': Timed)
    requires Distinct(q) && |q| <= capacity && capacity > 0
    requires Placed(q, capacity, h, m)
    requires set'.hash == h ==> Present(q, h)
    ensures var s, m' := CacheSet(q, capacity, set'.hash, set'.time), m + if Present(q, set'.hash) then 0 else 1;
      Placed(s, capacity, h, m')
  {
    SetMoves(q, capacity, set'.hash, set'.time);
    var s := CacheSet(q, capacity, set'.hash, set'.time);
    if Present(q, h) {
      var k := IndexIn(q, h);
      if Present(q, set'.hash) {
        IndexOfKept(s, h, k);
      } else if |q| < capacity {
        IndexOfKept(s, h, k);
      } else if k > 0 {
        assert s[k - 1] == q[k];
        IndexOfKept(s, h, k - 1);
      } else {
        assert forall i :: 0 <= i < |s| - 1 ==> s[i] == q[i + 1];
      }
    }
  }
}
