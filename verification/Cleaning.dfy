/** Removing the outputs of a build, directories last and innermost first. */
module Cleaning {
  type Path = string

  // ----- names and their order -----

  /** The path lies in the directory, at any depth. */
  predicate Inside(dir: Path, p: Path) {
    dir + "/" <= p
  }

  /** The order of strings, by their first difference. */
  predicate AtMost(a: Path, b: Path) {
    a == [] || (b != [] && (a[0] < b[0] || (a[0] == b[0] && AtMost(a[1..], b[1..]))))
  }

  lemma {:induction false} Total(a: Path, b: Path)
    ensures AtMost(a, b) || AtMost(b, a)
  {
    if a != [] && b != [] {
      Total(a[1..], b[1..]);
    }
  }

  lemma {:induction false} Transitive(a: Path, b: Path, c: Path)
    requires AtMost(a, b) && AtMost(b, c)
    ensures AtMost(a, c)
  {
    if a != [] {
      if a[0] == b[0] == c[0] {
        Transitive(a[1..], b[1..], c[1..]);
      }
    }
  }

  /** What lies in a directory comes after it. */
  lemma {:induction false} InsideIsAfter(dir: Path, p: Path)
    requires Inside(dir, p)
    ensures !AtMost(p, dir)
  {
    if dir != [] {
      assert p[0] == (dir + "/")[0] == dir[0];
      assert dir[1..] + "/" == (dir + "/")[1..] && (dir + "/")[1..] <= p[1..];
      InsideIsAfter(dir[1..], p[1..]);
    }
  }

  lemma InsideBoth(a: Path, b: Path, c: Path)
    requires Inside(a, b) && Inside(b, c)
    ensures Inside(a, c)
  {
  }

  predicate Descending(s: seq<Path>) {
    forall i, j :: 0 <= i < j < |s| ==> AtMost(s[j], s[i])
  }

  function Insert(s: seq<Path>, p: Path): seq<Path> {
    if s == [] || AtMost(s[0], p) then [p] + s else [s[0]] + Insert(s[1..], p)
  }

  /** In reverse order. */
  function Sorted(s: seq<Path>): seq<Path> {
    if s == [] then [] else Insert(Sorted(s[1..]), s[0])
  }

  lemma {:induction false} InsertSorts(s: seq<Path>, p: Path)
    requires Descending(s)
    ensures Descending(Insert(s, p)) && forall q :: q in Insert(s, p) <==> q == p || q in s
  {
    if s == [] {
    } else if AtMost(s[0], p) {
      forall j | 0 <= j < |s| ensures AtMost(s[j], p) {
        if j > 0 { Transitive(s[j], s[0], p); }
      }
    } else {
      Total(p, s[0]);
      InsertSorts(s[1..], p);
      forall j | 0 <= j < |Insert(s[1..], p)| ensures AtMost(Insert(s[1..], p)[j], s[0]) {
        assert Insert(s[1..], p)[j] in Insert(s[1..], p);
      }
      assert forall q :: q in s <==> q == s[0] || q in s[1..];
    }
  }

  lemma {:induction false} SortedSorts(s: seq<Path>)
    ensures Descending(Sorted(s)) && forall q :: q in Sorted(s) <==> q in s
  {
    if s != [] {
      SortedSorts(s[1..]);
      InsertSorts(Sorted(s[1..]), s[0]);
    }
  }

  // ----- removing -----

  /** The path is an output, and may be removed. */
  predicate Removable(outputs: seq<Path>, locked: set<Path>, p: Path) {
    p in outputs && p !in locked
  }

  /** The path is removable, and so is all that lies in it. */
  predicate AllRemovable(all: set<Path>, outputs: seq<Path>, locked: set<Path>, p: Path) {
    Removable(outputs, locked, p) && forall q :: q in all && Inside(p, q) ==> Removable(outputs, locked, q)
  }

  /** Some files and directories, of which some cannot be removed. */
  class Disk {
    var files: set<Path>
    var dirs: set<Path>
    const locked: set<Path>

    constructor (files: set<Path>, dirs: set<Path>, locked: set<Path>)
      ensures this.files == files && this.dirs == dirs && this.locked == locked
    {
      this.files, this.dirs, this.locked := files, dirs, locked;
    }

    method Remove(p: Path) returns (ok: bool)
      modifies this`files
      ensures ok <==> p in old(files) && p !in locked
      ensures files == if ok then old(files) - {p} else old(files)
    {
      ok := p in files && p !in locked;
      if ok { files := files - {p}; }
    }

    /** A directory is removed only when it is empty. */
    method RemoveDir(p: Path) returns (ok: bool)
      modifies this`dirs
      ensures ok <==> p in old(dirs) && p !in locked && forall q :: q in files + old(dirs) ==> !Inside(p, q)
      ensures dirs == if ok then old(dirs) - {p} else old(dirs)
    {
      ok := p in dirs && p !in locked && forall q :: q in files + dirs ==> !Inside(p, q);
      if ok { dirs := dirs - {p}; }
    }

    /** Removes all outputs, among them directories. A file stays exactly when it is no output or
        locked; a directory stays exactly when that holds of it or of something in it. */
    method Autoclean(outputs: seq<Path>)
      requires files !! dirs
      modifies this
      ensures forall p :: p in files <==> p in old(files) && !Removable(outputs, locked, p)
      ensures forall d :: d in dirs <==> d in old(dirs) && !AllRemovable(old(files + dirs), outputs, locked, d)
    {
      var cached := RemoveFiles(outputs);
      RemoveDirs(outputs, cached, old(files + dirs));
    }

    /** Tries every output as a file, and keeps those that are directories for later. */
    method RemoveFiles(outputs: seq<Path>) returns (cached: seq<Path>)
      requires files !! dirs
      modifies this`files
      ensures forall p :: p in files <==> p in old(files) && !Removable(outputs, locked, p)
      ensures forall p :: p in cached <==> p in outputs && p in dirs
    {
      cached := [];
      for i := 0 to |outputs|
        invariant forall p :: p in files <==> p in old(files) && !Removable(outputs[..i], locked, p)
        invariant forall p :: p in cached <==> p in outputs[..i] && p in dirs
      {
        assert forall p :: p in outputs[..i + 1] <==> p in outputs[..i] || p == outputs[i];
        var ok := Remove(outputs[i]);
        if !ok && outputs[i] in dirs {
          cached := cached + [outputs[i]];
        }
      }
      assert outputs[..|outputs|] == outputs;
    }

    /** Removes the directories that were kept for later. */
    method RemoveDirs(outputs: seq<Path>, cached: seq<Path>, ghost all: set<Path>)
      requires dirs <= all && forall p :: p in files <==> p in all - dirs && !Removable(outputs, locked, p)
      requires forall p :: p in cached <==> p in outputs && p in dirs
      modifies this`dirs
      ensures forall d :: d in dirs <==> d in old(dirs) && !AllRemovable(all, outputs, locked, d)
    {
      var order := Sorted(cached);
      SortedSorts(cached);
      for i := 0 to |order|
        invariant forall d :: d in dirs <==>
          d in old(dirs) && !(d in order[..i] && AllRemovable(all, outputs, locked, d))
      {
        assert forall p :: p in order[..i + 1] <==> p in order[..i] || p == order[i];
        InsideFirst(order, i);
        ghost var before := dirs;
        Emptied(all, outputs, files, old(dirs), before, order, i, locked);
        var ok := RemoveDir(order[i]);
      }
      assert order[..|order|] == order;
    }
  }

  /** What lies in a directory comes before it in the reverse order. */
  lemma InsideFirst(order: seq<Path>, i: nat)
    requires Descending(order) && i < |order|
    ensures forall q :: q in order && Inside(order[i], q) ==> q in order[..i]
  {
    forall q | q in order && Inside(order[i], q) ensures q in order[..i] {
      var j :| 0 <= j < |order| && order[j] == q;
      InsideIsAfter(order[i], q);
      Total(q, q);
      assert j < i;
      assert order[..i][j] == q;
    }
  }

  /** When its turn comes, a directory is empty exactly when all that was in it is removable. */
  lemma Emptied(all: set<Path>, outputs: seq<Path>, files: set<Path>, were: set<Path>, dirs: set<Path>,
                order: seq<Path>, i: nat, locked: set<Path>)
    requires i < |order| && were <= all
    requires forall p :: p in files <==> p in all - were && !Removable(outputs, locked, p)
    requires forall p :: p in order <==> p in outputs && p in were
    requires forall d :: d in dirs <==> d in were && !(d in order[..i] && AllRemovable(all, outputs, locked, d))
    requires forall q :: q in order && Inside(order[i], q) ==> q in order[..i]
    ensures (forall q :: q in files + dirs ==> !Inside(order[i], q)) <==>
      forall q :: q in all && Inside(order[i], q) ==> Removable(outputs, locked, q)
  {
    var d := order[i];
    if forall q :: q in all && Inside(d, q) ==> Removable(outputs, locked, q) {
      forall q | q in files + dirs ensures !Inside(d, q) {
        if Inside(d, q) {
          assert Removable(outputs, locked, q) && q in order[..i];
          forall r | r in all && Inside(q, r) ensures Removable(outputs, locked, r) {
            InsideBoth(d, q, r);
          }
        }
      }
    } else {
      var q :| q in all && Inside(d, q) && !Removable(outputs, locked, q);
      assert q in files + dirs;
    }
  }
}
