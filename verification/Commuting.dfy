/** Commands run in one order and in another. */
module Commuting {
  import opened Attempts
  import opened Memoize

  /** What a command may read, the files it looks for in vain among them, and what it may write. */
  datatype Footprint = Footprint(read: set<Path>, written: set<Path>)

  function Look(files: Files, p: Path): Option<Content> {
    if p in files then Some(files[p]) else None
  }

  predicate Same(a: Files, b: Files, paths: set<Path>) {
    forall p :: p in paths ==> Look(a, p) == Look(b, p)
  }

  /** What is written depends on the files that may be read, and lies among those that may be written. */
  ghost predicate Confined(w: World, c: Command, f: Footprint) {
    && (forall files :: w.exec(c, files).writes.Keys <= f.written)
    && (forall a, b :: Same(a, b, f.read) ==> w.exec(c, a).writes == w.exec(c, b).writes)
  }

  /** Neither writes what the other may read or write. */
  predicate Apart(f: Footprint, g: Footprint) {
    f.written !! g.read + g.written && g.written !! f.read + f.written
  }

  ghost predicate Commute(w: World, c: Command, d: Command) {
    forall files :: After(w, After(w, files, c), d) == After(w, After(w, files, d), c)
  }

  /** Commands whose footprints are apart may change places. */
  lemma ApartCommute(w: World, c: Command, d: Command, f: Footprint, g: Footprint)
    requires Confined(w, c, f) && Confined(w, d, g) && Apart(f, g)
    ensures Commute(w, c, d)
  {
    forall files ensures After(w, After(w, files, c), d) == After(w, After(w, files, d), c) {
      Unread(w, files, c, d, f, g);
      Unread(w, files, d, c, g, f);
      Swapped(files, w.exec(c, files).writes, w.exec(d, files).writes, f.written, g.written);
    }
  }

  lemma Swapped(files: Files, a: Files, b: Files, f: set<Path>, g: set<Path>)
    requires a.Keys <= f && b.Keys <= g && f !! g
    ensures files + a + b == files + b + a
  {
    forall p | p in a ensures p !in b {
      assert p in f;
    }
  }

  lemma Unread(w: World, files: Files, c: Command, d: Command, f: Footprint, g: Footprint)
    requires Confined(w, c, f) && Confined(w, d, g) && f.written !! g.read + g.written
    ensures w.exec(d, After(w, files, c)).writes == w.exec(d, files).writes
  {
    assert w.exec(c, files).writes.Keys <= f.written;
    forall p | p in g.read ensures Look(After(w, files, c), p) == Look(files, p) {
      assert p in g.read + g.written;
    }
    assert Same(After(w, files, c), files, g.read);
  }

  // ----- sorting a sequence of commands -----

  /** The command lines of numbered commands. */
  function Lines(text: nat -> Command, order: seq<nat>): (lines: seq<Command>)
    ensures |lines| == |order| && forall i :: 0 <= i < |order| ==> lines[i] == text(order[i])
  {
    seq(|order|, i requires 0 <= i < |order| => text(order[i]))
  }

  function Built(w: World, text: nat -> Command, files: Files, order: seq<nat>): Files {
    FullBuild(w, files, Lines(text, order))
  }

  lemma BuiltMore(w: World, text: nat -> Command, files: Files, order: seq<nat>, c: nat)
    ensures Built(w, text, files, order + [c]) == After(w, Built(w, text, files, order), text(c))
  {
    var lines := Lines(text, order + [c]);
    assert lines[..|lines| - 1] == Lines(text, order);
  }

  function Insert(order: seq<nat>, c: nat): (r: seq<nat>)
    ensures |r| == |order| + 1
  {
    if order == [] || order[|order| - 1] < c then order + [c]
    else Insert(order[..|order| - 1], c) + [order[|order| - 1]]
  }

  /** The commands in the order of their numbers. */
  function InOrder(order: seq<nat>): (r: seq<nat>)
    ensures |r| == |order|
  {
    if order == [] then [] else Insert(InOrder(order[..|order| - 1]), order[|order| - 1])
  }

  predicate Ascending(order: seq<nat>) {
    forall i, j :: 0 <= i < j < |order| ==> order[i] <= order[j]
  }

  lemma {:induction false} InsertAdds(order: seq<nat>, c: nat)
    ensures multiset(Insert(order, c)) == multiset(order) + multiset{c}
    ensures forall d :: d in Insert(order, c) ==> d == c || d in order
  {
    if order != [] && order[|order| - 1] >= c {
      var n := |order| - 1;
      InsertAdds(order[..n], c);
      assert order == order[..n] + [order[n]];
    }
  }

  lemma {:induction false} InsertSorts(order: seq<nat>, c: nat)
    requires Ascending(order)
    ensures Ascending(Insert(order, c))
  {
    if order != [] && order[|order| - 1] >= c {
      var n := |order| - 1;
      var r := Insert(order[..n], c);
      InsertSorts(order[..n], c);
      InsertAdds(order[..n], c);
      forall i | 0 <= i < |r| ensures r[i] <= order[n] {
        assert r[i] in r;
      }
    }
  }

  lemma {:induction false} InOrderSorts(order: seq<nat>)
    ensures Ascending(InOrder(order)) && multiset(InOrder(order)) == multiset(order)
    ensures forall d :: d in InOrder(order) ==> d in order
  {
    if order != [] {
      var n := |order| - 1;
      InOrderSorts(order[..n]);
      InsertSorts(InOrder(order[..n]), order[n]);
      InsertAdds(InOrder(order[..n]), order[n]);
      assert order == order[..n] + [order[n]];
    }
  }

  /** A command may move before those that it commutes with. */
  lemma {:induction false} InsertBuilds(w: World, text: nat -> Command, files: Files, order: seq<nat>, c: nat)
    requires forall d :: d in order && d >= c ==> Commute(w, text(d), text(c))
    ensures Built(w, text, files, Insert(order, c)) == After(w, Built(w, text, files, order), text(c))
  {
    if order == [] || order[|order| - 1] < c {
      BuiltMore(w, text, files, order, c);
    } else {
      var n := |order| - 1;
      var most, last := order[..n], order[n];
      InsertBuilds(w, text, files, most, c);
      assert order == most + [last];
      BuiltMore(w, text, files, most, last);
      BuiltMore(w, text, files, Insert(most, c), last);
      assert Commute(w, text(last), text(c));
    }
  }

  /** Each command commutes with those of larger numbers that come before it. */
  ghost predicate Sortable(w: World, text: nat -> Command, order: seq<nat>) {
    forall n :: 0 <= n < |order| ==> MayMove(w, text, order[..n], order[n])
  }

  ghost predicate MayMove(w: World, text: nat -> Command, before: seq<nat>, c: nat) {
    forall d :: d in before && d >= c ==> Commute(w, text(d), text(c))
  }

  /** Running the commands in the order of their numbers gives the same files. */
  lemma {:induction false} OrderMakesNoDifference(w: World, text: nat -> Command, files: Files, order: seq<nat>)
    requires Sortable(w, text, order)
    ensures Built(w, text, files, InOrder(order)) == Built(w, text, files, order)
  {
    if order != [] {
      var n := |order| - 1;
      SortablePart(w, text, order, n);
      OrderMakesNoDifference(w, text, files, order[..n]);
      assert MayMove(w, text, order[..n], order[n]);
      LastInPlace(w, text, files, order[..n], order[n]);
      assert order == order[..n] + [order[n]];
    }
  }

  lemma LastInPlace(w: World, text: nat -> Command, files: Files, order: seq<nat>, c: nat)
    requires MayMove(w, text, order, c)
    ensures Built(w, text, files, order + [c]) == After(w, Built(w, text, files, order), text(c))
    ensures Built(w, text, files, Insert(InOrder(order), c)) == After(w, Built(w, text, files, InOrder(order)), text(c))
  {
    InOrderSorts(order);
    InsertBuilds(w, text, files, InOrder(order), c);
    BuiltMore(w, text, files, order, c);
  }

  lemma SortablePart(w: World, text: nat -> Command, order: seq<nat>, n: nat)
    requires n <= |order| && Sortable(w, text, order)
    ensures Sortable(w, text, order[..n])
  {
    forall i | 0 <= i < n ensures MayMove(w, text, order[..n][..i], order[..n][i]) {
      assert order[..n][..i] == order[..i];
    }
  }
}
