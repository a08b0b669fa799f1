/** What is watched, and from which length files are followed, once a directory has been set up. */
module Setup {
  import opened Tailing

  /** What a directory entry is: a directory that can be listed or not, or anything else. */
  datatype Branch = File | Locked | Directory(entries: seq<Entry>)

  datatype Entry = Entry(name: string, node: Branch)

  /** The directories watched, by descriptor, and the offsets recorded. */
  datatype Prepared = Prepared(dirs: map<int, string>, offsets: map<string, nat>)

  /** The path of an entry: its directory, a slash, and its name. */
  function PathOf(directory: string, name: string): string {
    directory + "/" + name
  }

  /** Entries that are gone into; the others are taken for files. */
  predicate Entered(e: Entry) {
    !e.node.File? && e.name != "." && e.name != ".."
  }

  function Watched(p: Prepared, wd: string -> int, directory: string): Prepared {
    p.(dirs := p.dirs[wd(directory) := directory])
  }

  function Measured(p: Prepared, files: map<string, string>, path: string): Prepared {
    if path in files then p.(offsets := p.offsets[path := |files[path]|]) else p
  }

  /** The directory, then what is under it. */
  function Prepare(p: Prepared, wd: string -> int, files: map<string, string>, directory: string,
                   node: Branch): Prepared
    decreases node, if node.Directory? then |node.entries| + 1 else 0
  {
    var q := Watched(p, wd, directory);
    if node.Directory? then PrepareEntries(q, wd, files, directory, node, |node.entries|) else q
  }

  /** The first `n` entries of a directory. */
  function PrepareEntries(p: Prepared, wd: string -> int, files: map<string, string>, directory: string, node: Branch,
                          n: nat): Prepared
    requires node.Directory? && n <= |node.entries|
    decreases node, n
  {
    if n == 0 then p
    else PrepareEntry(PrepareEntries(p, wd, files, directory, node, n - 1), wd, files, directory, node, n - 1)
  }

  function PrepareEntry(p: Prepared, wd: string -> int, files: map<string, string>, directory: string, node: Branch,
                        i: nat): Prepared
    requires node.Directory? && i < |node.entries|
    decreases node, i
  {
    var e := node.entries[i];
    if Entered(e) then Prepare(p, wd, files, PathOf(directory, e.name), e.node)
    else Measured(p, files, PathOf(directory, e.name))
  }

  // ----- the files whose lengths are recorded -----

  /** The entries that are taken for files, in the directory and in those gone into below it. */
  function FilesUnder(directory: string, node: Branch): set<string>
    decreases node, if node.Directory? then |node.entries| + 1 else 0
  {
    if node.Directory? then FilesIn(directory, node, |node.entries|) else {}
  }

  /** Those of the first `n` entries. */
  function FilesIn(directory: string, node: Branch, n: nat): set<string>
    requires node.Directory? && n <= |node.entries|
    decreases node, n
  {
    if n == 0 then {} else FilesIn(directory, node, n - 1) + FilesAt(directory, node, n - 1)
  }

  function FilesAt(directory: string, node: Branch, i: nat): set<string>
    requires node.Directory? && i < |node.entries|
    decreases node, i
  {
    var e := node.entries[i];
    if e.node.File? || e.name == "." || e.name == ".." then {directory + "/" + e.name}
    else FilesUnder(directory + "/" + e.name, e.node)
  }

  lemma LengthsOfBoth(m: map<string, nat>, files: map<string, string>, a: set<string>, b: set<string>)
    ensures (m + Lengths(files, a)) + Lengths(files, b) == m + Lengths(files, a + b)
  {
  }

  /** Setting up a directory records the lengths of the files under it, and no others. */
  lemma {:induction false} PrepareRecords(p: Prepared, wd: string -> int, files: map<string, string>, directory: string,
                                          node: Branch)
    ensures Prepare(p, wd, files, directory, node).offsets == p.offsets + Lengths(files, FilesUnder(directory, node))
    decreases node, if node.Directory? then |node.entries| + 1 else 0
  {
    if node.Directory? {
      EntriesRecord(Watched(p, wd, directory), wd, files, directory, node, |node.entries|);
    } else {
      assert p.offsets + Lengths(files, {}) == p.offsets;
    }
  }

  lemma {:induction false} EntriesRecord(p: Prepared, wd: string -> int, files: map<string, string>, directory: string,
                                         node: Branch, n: nat)
    requires node.Directory? && n <= |node.entries|
    ensures PrepareEntries(p, wd, files, directory, node, n).offsets ==
      p.offsets + Lengths(files, FilesIn(directory, node, n))
    decreases node, n
  {
    if n == 0 {
      assert p.offsets + Lengths(files, {}) == p.offsets;
    } else {
      EntriesRecord(p, wd, files, directory, node, n - 1);
      EntryRecords(PrepareEntries(p, wd, files, directory, node, n - 1), wd, files, directory, node, n - 1);
      LengthsOfBoth(p.offsets, files, FilesIn(directory, node, n - 1), FilesAt(directory, node, n - 1));
    }
  }

  lemma {:induction false} EntryRecords(p: Prepared, wd: string -> int, files: map<string, string>, directory: string,
                                        node: Branch, i: nat)
    requires node.Directory? && i < |node.entries|
    ensures PrepareEntry(p, wd, files, directory, node, i).offsets ==
      p.offsets + Lengths(files, FilesAt(directory, node, i))
    decreases node, i
  {
    var e := node.entries[i];
    var path := PathOf(directory, e.name);
    if Entered(e) {
      PrepareRecords(p, wd, files, path, e.node);
    } else {
      assert Lengths(files, {path}) == if path in files then map[path := |files[path]|] else map[];
    }
  }

  // ----- what lies under a directory -----

  /** A way down a tree, by the numbers of the entries, through directories that are gone into. */
  predicate LeadsTo(node: Branch, route: seq<nat>, entered: bool)
    decreases |route|
  {
    if route == [] then entered
    else
      node.Directory? && route[0] < |node.entries| &&
      var e := node.entries[route[0]];
      if |route| == 1 then Entered(e) == entered else Entered(e) && LeadsTo(e.node, route[1..], entered)
  }

  function PathAlong(directory: string, node: Branch, route: seq<nat>, entered: bool): string
    requires LeadsTo(node, route, entered)
    decreases |route|
  {
    if route == [] then directory
    else
      var e := node.entries[route[0]];
      if |route| == 1 then PathOf(directory, e.name)
        else PathAlong(PathOf(directory, e.name), e.node, route[1..], entered)
  }

  ghost predicate OneDescriptorEach(wd: string -> int) {
    forall a, b :: wd(a) == wd(b) ==> a == b
  }

  /** What setting up adds stays: a directory keeps its descriptor, a file the length it had. */
  ghost predicate Keeps(p: Prepared, q: Prepared, wd: string -> int, files: map<string, string>) {
    && (forall d :: wd(d) in p.dirs && p.dirs[wd(d)] == d ==> wd(d) in q.dirs && q.dirs[wd(d)] == d)
    && (forall f :: f in p.offsets ==> f in q.offsets)
    && (forall f :: f in q.offsets ==>
         (f in p.offsets && q.offsets[f] == p.offsets[f]) || (f in files && q.offsets[f] == |files[f]|))
  }

  lemma {:induction false} PrepareKeeps(p: Prepared, wd: string -> int, files: map<string, string>, directory: string,
                                        node: Branch)
    requires OneDescriptorEach(wd)
    ensures Keeps(p, Prepare(p, wd, files, directory, node), wd, files)
    decreases node, if node.Directory? then |node.entries| + 1 else 0
  {
    if node.Directory? {
      EntriesKeep(Watched(p, wd, directory), wd, files, directory, node, |node.entries|);
    }
  }

  lemma {:induction false} EntriesKeep(p: Prepared, wd: string -> int, files: map<string, string>, directory: string,
                                       node: Branch, n: nat)
    requires OneDescriptorEach(wd) && node.Directory? && n <= |node.entries|
    ensures Keeps(p, PrepareEntries(p, wd, files, directory, node, n), wd, files)
    decreases node, n
  {
    if n > 0 {
      EntriesKeep(p, wd, files, directory, node, n - 1);
      EntryKeeps(PrepareEntries(p, wd, files, directory, node, n - 1), wd, files, directory, node, n - 1);
    }
  }

  lemma {:induction false} EntryKeeps(p: Prepared, wd: string -> int, files: map<string, string>, directory: string,
                                      node: Branch, i: nat)
    requires OneDescriptorEach(wd) && node.Directory? && i < |node.entries|
    ensures Keeps(p, PrepareEntry(p, wd, files, directory, node, i), wd, files)
    decreases node, i
  {
    var e := node.entries[i];
    if Entered(e) {
      PrepareKeeps(p, wd, files, PathOf(directory, e.name), e.node);
    }
  }

  /** What entry `i` has added is still there after the entries that follow. */
  lemma {:induction false} KeptUpTo(p: Prepared, wd: string -> int, files: map<string, string>, directory: string,
                                    node: Branch, i: nat, n: nat)
    requires OneDescriptorEach(wd) && node.Directory? && i <= n <= |node.entries|
    ensures Keeps(PrepareEntries(p, wd, files, directory, node, i), PrepareEntries(p, wd, files, directory, node, n),
                  wd, files)
    decreases n
  {
    if i < n {
      KeptUpTo(p, wd, files, directory, node, i, n - 1);
      EntryKeeps(PrepareEntries(p, wd, files, directory, node, n - 1), wd, files, directory, node, n - 1);
    }
  }

  /** A directory is watched, or a file followed from the length it has. */
  ghost predicate Covered(p: Prepared, wd: string -> int, files: map<string, string>, path: string, entered: bool) {
    if entered then wd(path) in p.dirs && p.dirs[wd(path)] == path
    else path in files ==> path in p.offsets && p.offsets[path] == |files[path]|
  }

  /** Setting up a directory watches it and every directory under it, and records of every file
      under it that can be opened the length it has. */
  lemma {:induction false} AllCovered(p: Prepared, wd: string -> int, files: map<string, string>, directory: string,
                                      node: Branch,
                                      route: seq<nat>, entered: bool)
    requires OneDescriptorEach(wd) && LeadsTo(node, route, entered)
    ensures Covered(Prepare(p, wd, files, directory, node), wd, files, PathAlong(directory, node, route, entered),
                    entered)
    decreases |route|
  {
    var q := Watched(p, wd, directory);
    if route == [] {
      if node.Directory? {
        EntriesKeep(q, wd, files, directory, node, |node.entries|);
      }
    } else {
      var i := route[0];
      var e := node.entries[i];
      var before := PrepareEntries(q, wd, files, directory, node, i);
      if |route| == 1 {
        if entered {
          AllCovered(before, wd, files, PathOf(directory, e.name), e.node, [], true);
        }
      } else {
        AllCovered(before, wd, files, PathOf(directory, e.name), e.node, route[1..], entered);
      }
      var after, path := PrepareEntries(q, wd, files, directory, node, i + 1),
        PathAlong(directory, node, route, entered);
      assert after == PrepareEntry(before, wd, files, directory, node, i);
      assert Covered(after, wd, files, path, entered);
      KeptUpTo(q, wd, files, directory, node, i + 1, |node.entries|);
      CoveredStays(after, PrepareEntries(q, wd, files, directory, node, |node.entries|), wd, files, path, entered);
    }
  }

  lemma CoveredStays(p: Prepared, q: Prepared, wd: string -> int, files: map<string, string>, path: string,
                     entered: bool)
    requires Keeps(p, q, wd, files) && Covered(p, wd, files, path, entered)
    ensures Covered(q, wd, files, path, entered)
  {
  }

  /** The files are the ends of the ways down. */
  lemma {:induction false} WayToFile(directory: string, node: Branch, path: string) returns (route: seq<nat>)
    requires path in FilesUnder(directory, node)
    ensures LeadsTo(node, route, false) && PathAlong(directory, node, route, false) == path
    decreases node, if node.Directory? then |node.entries| + 1 else 0
  {
    route := WayToEntry(directory, node, |node.entries|, path);
  }

  lemma {:induction false} WayToEntry(directory: string, node: Branch, n: nat, path: string) returns (route: seq<nat>)
    requires node.Directory? && n <= |node.entries| && path in FilesIn(directory, node, n)
    ensures LeadsTo(node, route, false) && PathAlong(directory, node, route, false) == path
    decreases node, n
  {
    if path in FilesIn(directory, node, n - 1) {
      route := WayToEntry(directory, node, n - 1, path);
    } else {
      var e := node.entries[n - 1];
      route := [n - 1];
      if Entered(e) {
        var rest := WayToFile(PathOf(directory, e.name), e.node, path);
        route := [n - 1] + rest;
        assert route[1..] == rest;
      }
    }
  }

  lemma {:induction false} FileAtEnd(directory: string, node: Branch, route: seq<nat>)
    requires LeadsTo(node, route, false)
    ensures PathAlong(directory, node, route, false) in FilesUnder(directory, node)
    decreases |route|
  {
    var e := node.entries[route[0]];
    if |route| > 1 {
      FileAtEnd(PathOf(directory, e.name), e.node, route[1..]);
    }
    AmongFiles(directory, node, route[0], |node.entries|);
  }

  lemma {:induction false} AmongFiles(directory: string, node: Branch, i: nat, n: nat)
    requires node.Directory? && i < n <= |node.entries|
    ensures FilesAt(directory, node, i) <= FilesIn(directory, node, n)
    decreases n
  {
    if i < n - 1 {
      AmongFiles(directory, node, i, n - 1);
    }
  }

  /** From setting up on, the bytes shipped for a file under the directory are exactly those that
      were appended to it afterwards, up to its length when its last modification was noticed. */
  lemma FollowedFromSetup(p: Prepared, wd: string -> int, files: map<string, string>, log: seq<Piece>,
                          directory: string, node: Branch,
                          route: seq<nat>, run: seq<Happening>)
    requires OneDescriptorEach(wd) && LeadsTo(node, route, false)
    requires PathAlong(directory, node, route, false) in files
    requires NeverRewritten(run, PathAlong(directory, node, route, false)) &&
      NeverSkipped(run, PathAlong(directory, node, route, false))
    ensures var path, w := PathAlong(directory, node, route, false),
      World(files, Prepare(p, wd, files, directory, node).offsets, log);
      && |files[path]| <= LastLength(w, run, path) <= |Content(After(w, run), path)|
      && Shipped(After(w, run).log, path) ==
           Shipped(log, path) + Content(After(w, run), path)[|files[path]|..LastLength(w, run, path)]
  {
    var path := PathAlong(directory, node, route, false);
    AllCovered(p, wd, files, directory, node, route, false);
    ShippedOnce(World(files, Prepare(p, wd, files, directory, node).offsets, log), run, path);
  }
}
