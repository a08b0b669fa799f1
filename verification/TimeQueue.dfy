/** The time queue: the last time of each of a bounded number of keys, in a ring of slots. */
module TimeQueue {
  import opened Attempts

  // ----- hashing -----

  const WORD := 0x1_0000_0000_0000_0000

  /** The djb2 hash of a C string's bytes, in an unsigned 64-bit word. */
  function Djb2(key: string): (h: nat)
    ensures h < WORD
  {
    if key == [] then 5381
    else (Djb2(key[..|key| - 1]) * 33 + (key[|key| - 1] as int) % 256) % WORD
  }

  // ----- the ring of slots -----

  datatype Ring = Ring(hashes: seq<nat>, values: seq<nat>, i: nat)

  function Find(hashes: seq<nat>, h: nat): (k: nat)
    ensures k <= |hashes|
    ensures k < |hashes| ==> hashes[k] == h
    ensures h !in hashes[..k]
  {
    if hashes == [] || hashes[0] == h then 0
    else
      var k := 1 + Find(hashes[1..], h);
      assert hashes[..k] == [hashes[0]] + hashes[1..][..k - 1];
      k
  }

  predicate Sound(r: Ring) {
    0 < |r.hashes| == |r.values| && r.i < |r.hashes|
  }

  function RingSet(r: Ring, h: nat, now: nat): (s: Ring)
    requires Sound(r)
    ensures Sound(s)
  {
    var k := Find(r.hashes, h);
    if k < |r.hashes| then r.(values := r.values[k := now])
    else
      var i := (r.i + 1) % |r.hashes|;
      Ring(r.hashes[i := h], r.values[i := now], i)
  }

  function RingGet(r: Ring, h: nat): Option<nat>
    requires Sound(r)
  {
    var k := Find(r.hashes, h);
    if k < |r.hashes| then Some(r.values[k]) else None
  }

  /** The quota test, exact: more than `quota` bytes a second since the last time? */
  predicate Exceeds(last: Option<nat>, quota: nat, size: nat, now: nat) {
    last.Some? && (now <= last.value || size * 1_000_000 > quota * (now - last.value))
  }

  class Queue {
    const values: array<nat>
    const hashes: array<nat>
    const quota: nat
    var i: nat

    predicate Valid()
      reads this, values, hashes
    {
      values != hashes && values.Length == hashes.Length > 0 && i < hashes.Length
    }

    function State(): Ring
      reads this, values, hashes
    {
      Ring(hashes[..], values[..], i)
    }

    constructor (size: nat, quota: nat)
      requires size > 0
      ensures Valid() && fresh(values) && fresh(hashes) && this.quota == quota
      ensures State() == Ring(seq(size, _ => 0), seq(size, _ => 0), 0)
    {
      values := new nat[size];
      hashes := new nat[size];
      this.quota := quota;
      i := 0;
      new;
      for k := 0 to size
        invariant i == 0 && forall j :: 0 <= j < k ==> values[j] == 0 && hashes[j] == 0
      {
        values[k], hashes[k] := 0, 0;
      }
    }

    method HashKey(key: string) returns (hash: nat)
      ensures hash == Djb2(key)
    {
      hash := 5381;
      for k := 0 to |key|
        invariant hash == Djb2(key[..k])
      {
        assert key[..k + 1][..k] == key[..k];
        hash := (hash * 33 + (key[k] as int) % 256) % WORD;
      }
      assert key[..|key|] == key;
    }

    method Set(key: string, now: nat)
      requires Valid()
      modifies this`i, values, hashes
      ensures Valid() && State() == RingSet(old(State()), Djb2(key), now)
    {
      var hash := HashKey(key);
      var k := Search(hash);
      if k == hashes.Length {
        i := i + 1;
        i := i % hashes.Length;
        k := i;
        hashes[k] := hash;
      }
      values[k] := now;
    }

    method Search(hash: nat) returns (k: nat)
      requires Valid()
      ensures k == Find(hashes[..], hash)
    {
      k := 0;
      while k < hashes.Length
        invariant k <= hashes.Length
        invariant hash !in hashes[..k]
      {
        if hashes[k] == hash { break; }
        k := k + 1;
      }
      FindIsFirst(hashes[..], hash, k);
    }

    method Get(key: string) returns (time: Option<nat>)
      requires Valid()
      ensures time == RingGet(State(), Djb2(key))
    {
      var hash := HashKey(key);
      var k := Search(hash);
      return if k < hashes.Length then Some(values[k]) else None;
    }

    method Overflows(key: string, size: nat, now: nat) returns (over: bool)
      requires Valid() && (RingGet(State(), Djb2(key)).Some? ==> RingGet(State(), Djb2(key)).value <= now)
      ensures over == Exceeds(RingGet(State(), Djb2(key)), quota, size, now)
      ensures match RingGet(State(), Djb2(key))
              case None => !over
              case Some(last) => !over <==> last < now && size * 1_000_000 <= quota * (now - last)
    {
      var time := Get(key);
      if time.None? { return false; }
      var dt := now - time.value;
      if dt == 0 { return true; }
      return size * 1_000_000 > quota * dt;
    }
  }

  lemma FindIsFirst(hashes: seq<nat>, h: nat, k: nat)
    requires k <= |hashes| && h !in hashes[..k] && (k < |hashes| ==> hashes[k] == h)
    ensures k == Find(hashes, h)
  {
    var f := Find(hashes, h);
    assert forall j :: 0 <= j < k ==> hashes[j] == hashes[..k][j];
    assert forall j :: 0 <= j < f ==> hashes[j] == hashes[..f][j];
  }

  // ----- the ring is a first-in-first-out cache -----

  datatype Timed = Timed(hash: nat, time: nat)

  function IndexIn(q: seq<Timed>, h: nat): (k: nat)
    ensures k <= |q|
    ensures k < |q| ==> q[k].hash == h
    ensures forall j :: 0 <= j < k ==> q[j].hash != h
  {
    if q == [] || q[0].hash == h then 0
    else
      var k := 1 + IndexIn(q[1..], h);
      assert forall j :: 1 <= j < k ==> q[j] == q[1..][j - 1];
      k
  }

  predicate Present(q: seq<Timed>, h: nat) {
    IndexIn(q, h) < |q|
  }

  function CacheGet(q: seq<Timed>, h: nat): Option<nat> {
    if Present(q, h) then Some(q[IndexIn(q, h)].time) else None
  }

  /** Oldest first; a miss adds at the end and, in a full cache, drops the oldest. */
  function CacheSet(q: seq<Timed>, capacity: nat, h: nat, now: nat): seq<Timed> {
    var k := IndexIn(q, h);
    if k < |q| then q[k := Timed(h, now)]
    else if |q| < capacity then q + [Timed(h, now)]
    else if q == [] then q
    else q[1..] + [Timed(h, now)]
  }

  predicate Distinct(q: seq<Timed>) {
    forall j, k :: 0 <= j < k < |q| ==> q[j].hash != q[k].hash
  }

  /** The slot of the `j`-th oldest of `m` entries in a ring of `n` slots. */
  function Slot(i: nat, n: nat, m: nat, j: nat): (k: nat)
    requires m <= n && i < n && j < m
    ensures k < n
  {
    var x := i + 1 + n - m + j;
    if x < n then x else x - n
  }

  /** The `k`-th slot after the newest entry that was never used. */
  function FreeSlot(i: nat, n: nat, k: nat): (x: nat)
    requires i < n && k < n
    ensures x < n
  {
    if i + 1 + k < n then i + 1 + k else i + 1 + k - n
  }

  /** The ring holds exactly the cache's entries, newest at `i`; slots never used hold 0. */
  ghost predicate Holds(r: Ring, q: seq<Timed>) {
    var n := |r.hashes|;
    && Sound(r) && |q| <= n && Distinct(q)
    && (forall j :: 0 <= j < |q| ==>
          q[j].hash != 0 && r.hashes[Slot(r.i, n, |q|, j)] == q[j].hash && r.values[Slot(r.i, n, |q|, j)] == q[j].time)
    && (forall k :: 0 <= k < n - |q| ==> r.hashes[FreeSlot(r.i, n, k)] == 0)
  }

  lemma EmptyHolds(size: nat)
    requires size > 0
    ensures Holds(Ring(seq(size, _ => 0), seq(size, _ => 0), 0), [])
  {
  }

  /** Every slot is either free or holds one entry. */
  lemma SlotKind(i: nat, n: nat, m: nat, x: nat)
    requires m <= n && i < n && x < n
    ensures (exists j :: 0 <= j < m && Slot(i, n, m, j) == x) || (exists k :: 0 <= k < n - m && FreeSlot(i, n, k) == x)
  {
    var d := if x > i then x - i - 1 else x + n - i - 1;
    if d < n - m {
      assert FreeSlot(i, n, d) == x;
    } else {
      assert Slot(i, n, m, d - (n - m)) == x;
    }
  }

  lemma GetRefines(r: Ring, q: seq<Timed>, h: nat)
    requires Holds(r, q) && h != 0
    ensures RingGet(r, h) == CacheGet(q, h)
    ensures Present(q, h) ==> Find(r.hashes, h) == Slot(r.i, |r.hashes|, |q|, IndexIn(q, h))
    ensures !Present(q, h) ==> Find(r.hashes, h) == |r.hashes|
  {
    var n, f := |r.hashes|, Find(r.hashes, h);
    assert forall x :: 0 <= x < f ==> r.hashes[x] == r.hashes[..f][x];
    if f < n {
      SlotKind(r.i, n, |q|, f);
      if j :| 0 <= j < |q| && Slot(r.i, n, |q|, j) == f {
        assert q[j].hash == h;
        assert IndexIn(q, h) == j;
      }
    }
  }

  /** Setting a key in the ring is setting it in the cache. */
  lemma SetRefines(r: Ring, q: seq<Timed>, h: nat, now: nat)
    requires Holds(r, q) && h != 0
    ensures Holds(RingSet(r, h, now), CacheSet(q, |r.hashes|, h, now))
  {
    GetRefines(r, q, h);
    if Present(q, h) {
      HitHolds(r, q, IndexIn(q, h), now);
      assert RingSet(r, h, now) == r.(values := r.values[Slot(r.i, |r.hashes|, |q|, IndexIn(q, h)) := now]);
    } else {
      var i := if r.i + 1 < |r.hashes| then r.i + 1 else 0;
      MissHolds(r, q, h, now);
      Wrap(r.i, |r.hashes|);
      assert RingSet(r, h, now) == Ring(r.hashes[i := h], r.values[i := now], i);
    }
  }

  lemma Wrap(i: nat, n: nat)
    requires i < n
    ensures (i + 1) % n == if i + 1 < n then i + 1 else 0
  {
  }

  lemma HitHolds(r: Ring, q: seq<Timed>, k: nat, now: nat)
    requires Holds(r, q) && k < |q|
    ensures Holds(r.(values := r.values[Slot(r.i, |r.hashes|, |q|, k) := now]), q[k := Timed(q[k].hash, now)])
  {
    forall j | 0 <= j < |q| && j != k ensures Slot(r.i, |r.hashes|, |q|, j) != Slot(r.i, |r.hashes|, |q|, k) {
    }
  }

  lemma MissHolds(r: Ring, q: seq<Timed>, h: nat, now: nat)
    requires Holds(r, q) && h != 0 && !Present(q, h)
    ensures var n, i := |r.hashes|, if r.i + 1 < |r.hashes| then r.i + 1 else 0;
      Holds(Ring(r.hashes[i := h], r.values[i := now], i), CacheSet(q, n, h, now))
  {
    var n, i := |r.hashes|, if r.i + 1 < |r.hashes| then r.i + 1 else 0;
    var s, q' := Ring(r.hashes[i := h], r.values[i := now], i), CacheSet(q, n, h, now);
    var shift := if |q| < n then 0 else 1;
    forall j | 0 <= j < |q'|
      ensures q'[j].hash != 0 && s.hashes[Slot(i, n, |q'|, j)] == q'[j].hash &&
        s.values[Slot(i, n, |q'|, j)] == q'[j].time
    {
      if j < |q'| - 1 {
        assert q'[j] == q[j + shift];
        assert Slot(i, n, |q'|, j) == Slot(r.i, n, |q|, j + shift);
        assert Slot(i, n, |q'|, j) != i;
      } else {
        assert Slot(i, n, |q'|, j) == i;
      }
    }
    forall k | 0 <= k < n - |q'| ensures s.hashes[FreeSlot(i, n, k)] == 0 {
      assert FreeSlot(i, n, k) == FreeSlot(r.i, n, k + 1);
      assert FreeSlot(i, n, k) != i;
    }
  }

  /** A hash of 0 is the mark of a free slot: in a fresh queue it is found, with time 0, though
      nothing was set; every other hash is not. */
  lemma FreshFinds(size: nat, h: nat)
    requires size > 0
    ensures RingGet(Ring(seq(size, _ => 0), seq(size, _ => 0), 0), h) == if h == 0 then Some(0) else None
  {
    if h != 0 {
      EmptyHolds(size);
      GetRefines(Ring(seq(size, _ => 0), seq(size, _ => 0), 0), [], h);
    }
  }

  // ----- a key whose hash is 0 -----

  predicate Follows(key: string, hashes: seq<nat>, n: nat)
    requires n < |key| && |hashes| == |key| + 1
  {
    hashes[n + 1] == (hashes[n] * 33 + (key[n] as int) % 256) % WORD
  }

  /** A list of the hashes of all the prefixes of a key. */
  lemma {:induction false} HashesOf(key: string, hashes: seq<nat>, n: nat)
    requires |hashes| == |key| + 1 && hashes[0] == 5381 && n <= |key|
    requires forall k :: 0 <= k < n ==> Follows(key, hashes, k)
    ensures Djb2(key[..n]) == hashes[n]
  {
    if n > 0 {
      HashesOf(key, hashes, n - 1);
      assert key[..n][..n - 1] == key[..n - 1] && Follows(key, hashes, n - 1);
    }
  }

  const UNLUCKY := "/var/log/@@FENF`V]`KNUZI"
  const HASHES: seq<nat> := [
    5381, 177620, 5861578, 193432171, 6383261757, 210647638028,
    6951372055032, 229395277816167, 7570044167933614, 249811457541809309, 8243778098879707261, 13790260231096617053,
    12356729857159124035, 1943715664640957672, 8802384712022948406, 13777534391114023228, 11936777137733527836,
      6532019997305834738,
    12642475100287478671, 11373308687876660687, 6384305225738770426, 7767887638574356360, 16532619114729588957,
      10620852648499438807,
    0]

  /** The path of a log file that a fresh queue finds. */
  lemma UnluckyKey(size: nat)
    requires size > 0
    ensures RingGet(Ring(seq(size, _ => 0), seq(size, _ => 0), 0), Djb2(UNLUCKY)) == Some(0)
  {
    HashesOf(UNLUCKY, HASHES, 24);
    assert UNLUCKY[..24] == UNLUCKY;
    FreshFinds(size, 0);
  }
}
