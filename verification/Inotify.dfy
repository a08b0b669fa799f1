/** Notifications as the kernel packs them, and the watcher that walks them. */
module Inotify {
  import opened Attempts
  import opened Chains
  import opened ChainsRuns
  import opened HashTable
  import opened Setup
  import opened Tailing
  import opened Tailer

  // ----- the packed form -----

  const EVENT_SIZE := 16
  const IN_MODIFY := 0x2
  const IN_CREATE := 0x100
  const IN_DELETE := 0x200
  const IN_ISDIR := 0x4000_0000

  predicate Has(mask: nat, bit: nat)
    requires bit > 0
  {
    (mask / bit) % 2 == 1
  }

  /** A notification; `padding` counts the NULs that follow the name. */
  datatype Notified = Notified(wd: int, mask: nat, cookie: nat, name: string, padding: nat)

  predicate WellFormed(e: Notified) {
    && -0x8000_0000 <= e.wd < 0x8000_0000 && e.mask < 0x1_0000_0000 && e.cookie < 0x1_0000_0000
    && |e.name| + e.padding < 0x1_0000_0000
    && (forall k :: 0 <= k < |e.name| ==> 0 < e.name[k] as int < 256)
    && (e.name != [] <==> e.padding > 0)
  }

  /** A 32-bit word, least significant byte first. */
  function WordBytes(n: nat): (b: seq<nat>)
    ensures |b| == 4
  {
    [n % 256, n / 256 % 256, n / 65536 % 256, n / 16777216 % 256]
  }

  function Word(b: seq<nat>, i: nat): nat
    requires i + 4 <= |b|
  {
    b[i] + 256 * b[i + 1] + 65536 * b[i + 2] + 16777216 * b[i + 3]
  }

  function Signed(n: nat): int {
    if n >= 0x8000_0000 then n - 0x1_0000_0000 else n
  }

  function Unsigned(n: int): (u: nat)
    requires -0x8000_0000 <= n < 0x8000_0000
    ensures u < 0x1_0000_0000 && Signed(u) == n
  {
    if n < 0 then n + 0x1_0000_0000 else n
  }

  function Bytes(s: string): (b: seq<nat>)
    ensures |b| == |s| && forall i :: 0 <= i < |s| ==> b[i] == s[i] as int
  {
    seq(|s|, i requires 0 <= i < |s| => s[i] as nat)
  }

  /** The layout: descriptor, mask, cookie, length, then the name and its padding. */
  predicate Layout(b: seq<nat>, e: Notified)
    requires WellFormed(e)
  {
    && |b| == EVENT_SIZE + |e.name| + e.padding
    && b[0..4] == WordBytes(Unsigned(e.wd)) && b[4..8] == WordBytes(e.mask)
    && b[8..12] == WordBytes(e.cookie) && b[12..16] == WordBytes(|e.name| + e.padding)
    && (forall k :: 16 <= k < 16 + |e.name| ==> b[k] == e.name[k - 16] as int)
    && (forall k :: 16 + |e.name| <= k < |b| ==> b[k] == 0)
  }

  function Packed(e: Notified): (b: seq<nat>)
    requires WellFormed(e)
    ensures Layout(b, e)
  {
    var header := WordBytes(Unsigned(e.wd)) + WordBytes(e.mask) + WordBytes(e.cookie) + WordBytes(|e.name| + e.padding);
    header + Bytes(e.name) + seq(e.padding, _ => 0)
  }

  function PackedAll(events: seq<Notified>): (b: seq<nat>)
    requires forall k :: 0 <= k < |events| ==> WellFormed(events[k])
    ensures b == [] <==> events == []
  {
    if events == [] then [] else Packed(events[0]) + PackedAll(events[1..])
  }

  /** The C string that starts at a position. */
  function CString(b: seq<nat>, i: nat): (s: string)
    requires i <= |b|
    decreases |b| - i
  {
    if i == |b| || b[i] == 0 || b[i] >= 256 then [] else [b[i] as char] + CString(b, i + 1)
  }

  /** The bytes of `p` stand at position `i`. */
  predicate StandsAt(b: seq<nat>, i: nat, p: seq<nat>) {
    i + |p| <= |b| && forall k :: i <= k < i + |p| ==> b[k] == p[k - i]
  }

  lemma WordRound(n: nat, b: seq<nat>, i: nat, p: seq<nat>, j: nat)
    requires StandsAt(b, i, p) && j + 4 <= |p|
    requires n < 0x1_0000_0000 && p[j..j + 4] == WordBytes(n)
    ensures Word(b, i + j) == n
  {
    var w := p[j..j + 4];
    assert p[j] == w[0] && p[j + 1] == w[1] && p[j + 2] == w[2] && p[j + 3] == w[3];
    Digits(n);
  }

  lemma Digits(n: nat)
    requires n < 0x1_0000_0000
    ensures n == n % 256 + 256 * (n / 256 % 256) + 65536 * (n / 65536 % 256) + 16777216 * (n / 16777216 % 256)
  {
  }

  lemma {:induction false} CStringRound(name: string, b: seq<nat>, i: nat)
    requires i + |name| < |b| && b[i + |name|] == 0
    requires forall k :: 0 <= k < |name| ==> 0 < name[k] as int < 256
    requires StandsAt(b, i, Bytes(name))
    ensures CString(b, i) == name
    decreases |name|
  {
    if name != [] {
      assert b[i] == Bytes(name)[0];
      assert StandsAt(b, i + 1, Bytes(name[1..]));
      CStringRound(name[1..], b, i + 1);
    }
  }

  /** Reading a packed notification gives back its descriptor, mask, length and name. */
  lemma Unpacks(e: Notified, b: seq<nat>, i: nat, p: seq<nat>)
    requires WellFormed(e) && Layout(p, e) && StandsAt(b, i, p)
    ensures Signed(Word(b, i)) == e.wd && Word(b, i + 4) == e.mask
    ensures Word(b, i + 12) == |e.name| + e.padding
    ensures |e.name| + e.padding > 0 ==> CString(b, i + 16) == e.name
  {
    WordRound(Unsigned(e.wd), b, i, p, 0);
    WordRound(e.mask, b, i, p, 4);
    WordRound(|e.name| + e.padding, b, i, p, 12);
    if |e.name| + e.padding > 0 {
      assert StandsAt(b, i + 16, Bytes(e.name));
      CStringRound(e.name, b, i + 16);
    }
  }

  // ----- what is made of the notifications -----

  /** The files, offsets and log, and the directory of every descriptor. */
  datatype Sight = Sight(world: World, dirs: map<int, string>)

  /** A directory has appeared in a watched one. */
  predicate Creates(dirs: map<int, string>, e: Notified) {
    e.name != [] && Has(e.mask, IN_CREATE) && Has(e.mask, IN_ISDIR) && e.wd in dirs
  }

  /** A file in a watched directory was modified. */
  predicate Modifies(dirs: map<int, string>, e: Notified) {
    e.name != [] && Has(e.mask, IN_MODIFY) && !Has(e.mask, IN_ISDIR) && e.wd in dirs
  }

  /** What one notification makes of the sight; `wd` are the descriptors that watching gives, and
      `tree` is what a new directory is found to hold. */
  function Moved(s: Sight, e: Notified, wd: string -> int, tree: string -> Branch): Sight {
    if Creates(s.dirs, e) then
      var path := PathOf(s.dirs[e.wd], e.name);
      var q := Prepare(Prepared(s.dirs, s.world.offsets), wd, s.world.files, path, tree(path));
      Sight(s.world.(offsets := q.offsets), q.dirs)
    else if Modifies(s.dirs, e) then
      s.(world := Step(s.world, Modified(PathOf(s.dirs[e.wd], e.name))))
    else s
  }

  /** Each bit that is looked at is set or not whatever stands below and above it. */
  lemma HasExact(low: nat, high: nat)
    ensures low < 0x2 ==> Has(low + 0x2 * (2 * high + 1), 0x2) && !Has(low + 0x2 * (2 * high), 0x2)
    ensures low < 0x100 ==> Has(low + 0x100 * (2 * high + 1), 0x100) && !Has(low + 0x100 * (2 * high), 0x100)
    ensures low < 0x4000_0000 ==>
      Has(low + 0x4000_0000 * (2 * high + 1), 0x4000_0000) && !Has(low + 0x4000_0000 * (2 * high), 0x4000_0000)
  {
    Above(low, 2 * high + 1);
    Above(low, 2 * high);
  }

  lemma Above(low: nat, high: nat)
    ensures low < 0x2 ==> (low + 0x2 * high) / 0x2 == high
    ensures low < 0x100 ==> (low + 0x100 * high) / 0x100 == high
    ensures low < 0x4000_0000 ==> (low + 0x4000_0000 * high) / 0x4000_0000 == high
  {
  }

  /** In the kernel's numbers: a new directory (0x4000_0100) with a name under a watched one is set
      up, a modified file (0x2, not a directory) with a name under one is followed, and nothing else
      has an effect. */
  lemma MovedExact(s: Sight, e: Notified, wd: string -> int, tree: string -> Branch)
    ensures var created := e.name != [] && e.wd in s.dirs && Has(e.mask, 0x100) && Has(e.mask, 0x4000_0000);
      var modified := e.name != [] && e.wd in s.dirs && Has(e.mask, 0x2) && !Has(e.mask, 0x4000_0000);
      && (created ==> var path := s.dirs[e.wd] + "/" + e.name;
            var q := Prepare(Prepared(s.dirs, s.world.offsets), wd, s.world.files, path, tree(path));
            Moved(s, e, wd, tree) == Sight(s.world.(offsets := q.offsets), q.dirs))
      && (modified ==>
            Moved(s, e, wd, tree) == s.(world := Step(s.world, Modified(s.dirs[e.wd] + "/" + e.name))))
      && (!created && !modified ==> Moved(s, e, wd, tree) == s)
  {
  }

  function MovedThrough(s: Sight, events: seq<Notified>, wd: string -> int, tree: string -> Branch, n: nat): Sight
    requires n <= |events|
  {
    if n == 0 then s else Moved(MovedThrough(s, events, wd, tree, n - 1), events[n - 1], wd, tree)
  }

  /** What a notification tells of the files. */
  function Told(dirs: map<int, string>, e: Notified, tree: string -> Branch): seq<Happening> {
    if Creates(dirs, e) then
      var path := PathOf(dirs[e.wd], e.name);
      [SetUp(FilesUnder(path, tree(path)))]
    else if Modifies(dirs, e) then [Modified(PathOf(dirs[e.wd], e.name))]
    else []
  }

  /** The directories that a notification is read against are those that the ones before it left. */
  function ToldBy(s: Sight, events: seq<Notified>, wd: string -> int, tree: string -> Branch, n: nat): seq<Happening>
    requires n <= |events|
  {
    if n == 0 then []
    else ToldBy(s, events, wd, tree, n - 1) + Told(MovedThrough(s, events, wd, tree, n - 1).dirs, events[n - 1], tree)
  }

  lemma AfterOne(w: World, h: Happening)
    ensures After(w, [h]) == Step(w, h)
  {
    AfterOneMore(w, [], h);
    assert [] + [h] == [h];
  }

  lemma CreatesAsTold(s: Sight, e: Notified, wd: string -> int, tree: string -> Branch)
    requires Creates(s.dirs, e)
    ensures var path := PathOf(s.dirs[e.wd], e.name);
      Moved(s, e, wd, tree).world == Step(s.world, SetUp(FilesUnder(path, tree(path))))
  {
    var path := PathOf(s.dirs[e.wd], e.name);
    PrepareRecords(Prepared(s.dirs, s.world.offsets), wd, s.world.files, path, tree(path));
  }

  lemma MovedAsTold(s: Sight, e: Notified, wd: string -> int, tree: string -> Branch)
    ensures Moved(s, e, wd, tree).world == After(s.world, Told(s.dirs, e, tree))
  {
    if Creates(s.dirs, e) {
      var path := PathOf(s.dirs[e.wd], e.name);
      CreatesAsTold(s, e, wd, tree);
      AfterOne(s.world, SetUp(FilesUnder(path, tree(path))));
    } else if Modifies(s.dirs, e) {
      AfterOne(s.world, Modified(PathOf(s.dirs[e.wd], e.name)));
    }
  }

  predicate AsTold(w: World, s: Sight, told: seq<Happening>) {
    s.world == After(w, told)
  }

  lemma ToldStep(w: World, s: Sight, e: Notified, wd: string -> int, tree: string -> Branch, told: seq<Happening>)
    requires AsTold(w, s, told)
    ensures AsTold(w, Moved(s, e, wd, tree), told + Told(s.dirs, e, tree))
  {
    MovedAsTold(s, e, wd, tree);
    AfterBoth(w, told, Told(s.dirs, e, tree));
  }

  lemma ToldNext(s: Sight, events: seq<Notified>, wd: string -> int, tree: string -> Branch, n: nat, t: Sight,
                 told: seq<Happening>)
    requires n < |events| && t == MovedThrough(s, events, wd, tree, n) && told == ToldBy(s, events, wd, tree, n)
    requires AsTold(s.world, Moved(t, events[n], wd, tree), told + Told(t.dirs, events[n], tree))
    ensures AsTold(s.world, MovedThrough(s, events, wd, tree, n + 1), ToldBy(s, events, wd, tree, n + 1))
  {
  }

  /** The notifications move the world as what they tell of. */
  lemma {:induction false} AfterTold(s: Sight, events: seq<Notified>, wd: string -> int, tree: string -> Branch, n: nat)
    requires n <= |events|
    ensures AsTold(s.world, MovedThrough(s, events, wd, tree, n), ToldBy(s, events, wd, tree, n))
  {
    if n > 0 {
      var t, told := MovedThrough(s, events, wd, tree, n - 1), ToldBy(s, events, wd, tree, n - 1);
      AfterTold(s, events, wd, tree, n - 1);
      ToldStep(s.world, t, events[n - 1], wd, tree, told);
      ToldNext(s, events, wd, tree, n - 1, t, told);
    }
  }

  /** A directory that has appeared is watched from then on, with all those below it, and every
      file below it is followed from the length it has. */
  lemma CreatedIsCovered(s: Sight, e: Notified, wd: string -> int, tree: string -> Branch, route: seq<nat>,
                         entered: bool)
    requires OneDescriptorEach(wd) && Creates(s.dirs, e) && LeadsTo(tree(PathOf(s.dirs[e.wd], e.name)), route, entered)
    ensures var t, path := Moved(s, e, wd, tree), PathOf(s.dirs[e.wd], e.name);
      Covered(Prepared(t.dirs, t.world.offsets), wd, s.world.files, PathAlong(path, tree(path), route, entered),
              entered)
  {
    var path := PathOf(s.dirs[e.wd], e.name);
    AllCovered(Prepared(s.dirs, s.world.offsets), wd, s.world.files, path, tree(path), route, entered);
  }

  /** The keys that a notification leads to have an index in the table. */
  ghost predicate Nameable(dirs: map<int, string>, e: Notified, tree: string -> Branch) {
    && (Modifies(dirs, e) ==> Hashable(Text(PathOf(dirs[e.wd], e.name))))
    && (Creates(dirs, e) ==> var path := PathOf(dirs[e.wd], e.name); HashableTree(path, tree(path)))
  }

  ghost predicate HashableTree(directory: string, node: Branch) {
    forall path <- FilesUnder(directory, node) :: Hashable(Text(path))
  }

  /** Names without a slash under different directories have different paths. */
  lemma PathsDiffer(a: string, m: string, b: string, n: string)
    requires '/' !in m && '/' !in n
    requires PathOf(a, m) == PathOf(b, n)
    ensures a == b && m == n
  {
    var p := PathOf(a, m);
    assert p == PathOf(b, n);
    assert p[|a|] == '/' && p[|b|] == '/';
    assert forall k :: |a| < k < |p| ==> p[k] == m[k - |a| - 1];
    assert forall k :: |b| < k < |p| ==> p[k] == n[k - |b| - 1];
    assert |a| == |b|;
    assert p[..|a|] == a && p[..|b|] == b;
    assert p[|a| + 1..] == m && p[|b| + 1..] == n;
  }

  ghost predicate WatchOf(found: Option<Str>, dirs: map<int, string>, wd: int, live: set<Str>) {
    match found
    case Some(directory) => wd in dirs && directory.text == dirs[wd] && directory in live
    case None => wd !in dirs
  }

  /** The table of watches holds the directory of every descriptor, in allocated memory. */
  ghost predicate Watching(t: seq<Chain<Str>>, dirs: map<int, string>, live: set<Str>)
    requires |t| == SIZE
  {
    forall wd: int :: WatchOf(Lookup(t, Number(wd)), dirs, wd, live)
  }

  lemma WatchingMore(t: seq<Chain<Str>>, dirs: map<int, string>, live: set<Str>, more: set<Str>)
    requires |t| == SIZE && Watching(t, dirs, live) && live <= more
    ensures Watching(t, dirs, more)
  {
    forall wd: int ensures WatchOf(Lookup(t, Number(wd)), dirs, wd, more) {
      assert WatchOf(Lookup(t, Number(wd)), dirs, wd, live);
    }
  }

  /** Reads the notification at a position, its name only when its length is not zero. */
  method ReadEvent(buffer: seq<nat>, i: nat, ghost events: seq<Notified>, ghost k: nat)
    returns (wd: int, mask: nat, len: nat, name: string)
    requires PackedFrom(buffer, i, events, k) && i < |buffer|
    ensures k < |events| && WellFormed(events[k]) && wd == events[k].wd && mask == events[k].mask &&
      name == events[k].name
    ensures len == |name| + events[k].padding && PackedFrom(buffer, i + EVENT_SIZE + len, events, k + 1)
  {
    NextPacked(buffer, i, events, k);
    Unpacks(events[k], buffer, i, Packed(events[k]));
    wd, mask, len := Signed(Word(buffer, i)), Word(buffer, i + 4), Word(buffer, i + 12);
    name := if len > 0 then CString(buffer, i + 16) else "";
  }

  lemma WatchingPut(t: seq<Chain<Str>>, dirs: map<int, string>, wd: int, copy: Str, live: set<Str>)
    requires Sound(t) && Watching(t, dirs, live)
    ensures Watching(Chains.Put(t, Number(wd), copy), dirs[wd := copy.text], live + {copy})
  {
    forall v: int ensures WatchOf(Lookup(Chains.Put(t, Number(wd), copy), Number(v)), dirs[wd := copy.text], v,
                                  live + {copy}) {
      PutLaw(t, Number(wd), copy, Number(v));
      assert WatchOf(Lookup(t, Number(v)), dirs, v, live);
    }
  }

  class Watcher {
    const tail: Tail
    const watches: Table<Str>

    constructor (tail: Tail, watches: Table<Str>)
      ensures this.tail == tail && this.watches == watches
    {
      this.tail, this.watches := tail, watches;
    }

    ghost predicate Valid()
      reads tail, tail.memory, tail.offsets, tail.offsets.buckets, tail.offsets.repr
      reads watches, watches.buckets, watches.repr
    {
      && tail.Valid()
      && watches.memory == tail.memory && watches.Valid()
      && (forall key <- KeysIn(watches.nodes) :: key.Integer?)
      && Apart()
    }

    /** The two tables share nothing but the memory. */
    ghost predicate Apart()
      reads tail, tail.offsets, watches
    {
      && (watches as object) != tail.offsets && (watches.buckets as object) != tail.offsets.buckets
      && forall a, b :: a in watches.repr && b in tail.offsets.repr ==> (a as object) != b
    }

    /** The log, the offsets, the watches and the memory are those of a world. */
    ghost predicate InStep(s: Sight, others: set<Str>)
      reads tail, tail.memory, tail.offsets, tail.offsets.buckets, tail.offsets.repr
      reads watches, watches.buckets, watches.repr
    {
      Valid() && tail.Follows(s.world) && tail.Owned(others) && Watching(watches.State(), s.dirs, others)
    }

    /** The tables hold what has been prepared; `others` are strings that are not keys. */
    ghost predicate Ready(p: Prepared, others: set<Str>)
      reads tail, tail.memory, tail.offsets, tail.offsets.buckets, tail.offsets.repr
      reads watches, watches.buckets, watches.repr
    {
      && Valid() && Tracks(tail.offsets.State(), p.offsets) && Watching(watches.State(), p.dirs, others)
      && others <= tail.memory.live && others !! Strings(tail.Keys())
    }

    /** Watches a directory, under a copy of its path. */
    method WatchDirectory(directory: Str, wd: int, ghost p: Prepared, ghost others: set<Str>)
      returns (ghost more: set<Str>)
      requires Ready(p, others)
      modifies tail.memory, watches`nodes, watches`repr, watches.buckets, watches.repr
      ensures Ready(p.(dirs := p.dirs[wd := directory.text]), more) && others <= more
      ensures forall n :: n in watches.repr ==> n in old(watches.repr) || fresh(n)
    {
      var copy := Copy(directory.text, p, others);
      more := others + {copy};
      Record(wd, copy, p, others);
    }

    /** A string in newly allocated memory. */
    method Copy(text: string, ghost p: Prepared, ghost others: set<Str>) returns (copy: Str)
      requires Ready(p, others)
      modifies tail.memory
      ensures Ready(p, others) && fresh(copy) && copy.text == text && tail.memory.live == old(tail.memory.live) + {copy}
    {
      label Before:
      copy := tail.memory.Allocate(text);
      assert unchanged@Before(tail.offsets) && unchanged@Before(tail.offsets.buckets) &&
        unchanged@Before(tail.offsets.repr);
      assert unchanged@Before(watches) && unchanged@Before(watches.buckets) && unchanged@Before(watches.repr);
    }

    /** Stores the directory of a descriptor. */
    method Record(wd: int, copy: Str, ghost p: Prepared, ghost others: set<Str>)
      requires Ready(p, others) && copy in tail.memory.live && copy !in Strings(tail.Keys())
      modifies watches`nodes, watches`repr, watches.buckets, watches.repr
      ensures Ready(p.(dirs := p.dirs[wd := copy.text]), others + {copy})
      ensures forall n :: n in watches.repr ==> n in old(watches.repr) || fresh(n)
    {
      WatchingPut(watches.State(), p.dirs, wd, copy, others);
      label Before:
      watches.Put(Integer(wd), copy);
      assert unchanged@Before(tail.offsets) && unchanged@Before(tail.offsets.buckets) &&
        unchanged@Before(tail.offsets.repr);
    }

    /** Records the length of a file, or frees its path. */
    method SetupFile(path: Str, files: map<string, string>, ghost p: Prepared, ghost others: set<Str>)
      requires Ready(p, others) && path in tail.memory.live && path !in others + Strings(tail.Keys()) &&
        Hashable(Text(path.text))
      modifies tail.memory, tail.offsets`nodes, tail.offsets`repr, tail.offsets.buckets, tail.offsets.repr
      ensures Ready(Measured(p, files, path.text), others)
      ensures forall n :: n in tail.offsets.repr ==> n in old(tail.offsets.repr) || fresh(n)
    {
      tail.Measure(path, files, p.offsets, others);
    }

    /** Watches a directory and, if it can be listed, goes through its entries: into directories
        other than "." and "..", and recording the length of anything else. The paths of the
        directories gone into are never freed. */
    method SetupWatches(directory: Str?, node: Branch, wd: string -> int, files: map<string, string>, ghost p: Prepared,
                        ghost others: set<Str>) returns (ghost more: set<Str>)
      requires Ready(p, others) && (directory != null ==> HashableTree(directory.text, node))
      modifies tail.memory, tail.offsets`nodes, tail.offsets`repr, tail.offsets.buckets, tail.offsets.repr
      modifies watches`nodes, watches`repr, watches.buckets, watches.repr
      ensures Ready(if directory == null then p else Prepare(p, wd, files, directory.text, node), more) &&
        others <= more
      ensures forall n :: n in tail.offsets.repr ==> n in old(tail.offsets.repr) || fresh(n)
      ensures forall n :: n in watches.repr ==> n in old(watches.repr) || fresh(n)
      decreases node, 2
    {
      more := others;
      if directory == null { return; }
      more := WatchDirectory(directory, wd(directory.text), p, others);
      if node.Directory? {
        more := SetupEntries(directory, node, wd, files, Watched(p, wd, directory.text), more);
      }
    }

    /** The loop over the entries of a directory. */
    method SetupEntries(directory: Str, node: Branch, wd: string -> int, files: map<string, string>, ghost p: Prepared,
                        ghost others: set<Str>) returns (ghost more: set<Str>)
      requires Ready(p, others) && node.Directory? && HashableTree(directory.text, node)
      modifies tail.memory, tail.offsets`nodes, tail.offsets`repr, tail.offsets.buckets, tail.offsets.repr
      modifies watches`nodes, watches`repr, watches.buckets, watches.repr
      ensures Ready(PrepareEntries(p, wd, files, directory.text, node, |node.entries|), more) && others <= more
      ensures forall n :: n in tail.offsets.repr ==> n in old(tail.offsets.repr) || fresh(n)
      ensures forall n :: n in watches.repr ==> n in old(watches.repr) || fresh(n)
      decreases node, 1
    {
      more := others;
      for i := 0 to |node.entries|
        invariant Ready(PrepareEntries(p, wd, files, directory.text, node, i), more) && others <= more
        invariant forall n :: n in tail.offsets.repr ==> n in old(tail.offsets.repr) || fresh(n)
        invariant forall n :: n in watches.repr ==> n in old(watches.repr) || fresh(n)
      {
        more := SetupEntry(directory, node, i, wd, files, PrepareEntries(p, wd, files, directory.text, node, i), more);
      }
    }

    /** One entry of a directory. */
    method SetupEntry(directory: Str, node: Branch, i: nat, wd: string -> int, files: map<string, string>,
                      ghost p: Prepared,
                      ghost others: set<Str>) returns (ghost more: set<Str>)
      requires Ready(p, others) && node.Directory? && i < |node.entries| && HashableTree(directory.text, node)
      modifies tail.memory, tail.offsets`nodes, tail.offsets`repr, tail.offsets.buckets, tail.offsets.repr
      modifies watches`nodes, watches`repr, watches.buckets, watches.repr
      ensures Ready(PrepareEntry(p, wd, files, directory.text, node, i), more) && others <= more
      ensures forall n :: n in tail.offsets.repr ==> n in old(tail.offsets.repr) || fresh(n)
      ensures forall n :: n in watches.repr ==> n in old(watches.repr) || fresh(n)
      decreases node, 0
    {
      var e := node.entries[i];
      AmongFiles(directory.text, node, i, |node.entries|);
      var path := Copy(PathOf(directory.text, e.name), p, others);
      if Entered(e) {
        more := SetupWatches(path, e.node, wd, files, p, others);
      } else {
        more := others;
        SetupFile(path, files, p, others);
      }
    }

    /** Once set up, the watcher follows the files from the lengths recorded; all other strings in
        memory are not its paths. */
    lemma StartsInStep(p: Prepared, others: set<Str>, files: map<string, string>)
      requires Ready(p, others)
      ensures InStep(Sight(World(files, p.offsets, tail.log), p.dirs), tail.memory.live - Strings(tail.Keys()))
      ensures others <= tail.memory.live - Strings(tail.Keys())
    {
      var rest := tail.memory.live - Strings(tail.Keys());
      WatchingMore(watches.State(), p.dirs, others, rest);
      assert tail.memory.live == rest + Strings(tail.Keys());
    }

    /** The path of a notification in newly allocated memory, none when its descriptor is unknown. */
    method EventPath(wd: int, name: string, ghost dirs: map<int, string>) returns (path: Str?)
      requires Valid() && Watching(watches.State(), dirs, tail.memory.live)
      modifies tail.memory
      ensures Valid() && tail.offsets.State() == old(tail.offsets.State()) && watches.State() == old(watches.State())
      ensures path == null <==> wd !in dirs
      ensures path == null ==> tail.memory.live == old(tail.memory.live)
      ensures path != null ==>
        fresh(path) && path.text == dirs[wd] + "/" + name && tail.memory.live == old(tail.memory.live) + {path}
    {
      var directory := watches.Get(Integer(wd));
      assert WatchOf(directory, dirs, wd, tail.memory.live);
      match directory
      case None => path := null;
      case Some(d) => path := tail.memory.Allocate(d.text + "/" + name);
    }

    /** The create branch of the handling of one notification: a new directory is set up. Its
        path is never freed. */
    method HandleCreate(event: int, mask: nat, len: nat, name: string, wd: string -> int, tree: string -> Branch,
                        files: map<string, string>, ghost s: Sight, ghost e: Notified, ghost others: set<Str>)
      returns (ghost rest: set<Str>)
      requires Same(event, mask, len, name, e) && InStep(s, others) && s.world.files == files &&
        Nameable(s.dirs, e, tree)
      modifies tail.memory, tail.offsets`nodes, tail.offsets`repr, tail.offsets.buckets, tail.offsets.repr
      modifies watches`nodes, watches`repr, watches.buckets, watches.repr
      ensures forall n :: n in tail.offsets.repr ==> n in old(tail.offsets.repr) || fresh(n)
      ensures forall n :: n in watches.repr ==> n in old(watches.repr) || fresh(n)
      ensures InStep(if Creates(s.dirs, e) then Moved(s, e, wd, tree) else s, rest)
      ensures others <= rest && (!Creates(s.dirs, e) ==> rest == others)
    {
      rest := others;
      if len > 0 && Has(mask, IN_CREATE) && Has(mask, IN_ISDIR) {
        var path := EventPath(event, name, s.dirs);
        rest := GoInto(path, wd, tree, files, s, others);
      }
    }

    /** Sets up a directory, if there is one. */
    method GoInto(path: Str?, wd: string -> int, tree: string -> Branch, files: map<string, string>, ghost s: Sight,
                  ghost others: set<Str>)
      returns (ghost rest: set<Str>)
      requires Ready(Prepared(s.dirs, s.world.offsets), others) && s.world.files == files && tail.log == s.world.log
      requires path == null ==> tail.memory.live == others + Strings(tail.Keys())
      requires path != null ==> HashableTree(path.text, tree(path.text))
      modifies tail.memory, tail.offsets`nodes, tail.offsets`repr, tail.offsets.buckets, tail.offsets.repr
      modifies watches`nodes, watches`repr, watches.buckets, watches.repr
      ensures forall n :: n in tail.offsets.repr ==> n in old(tail.offsets.repr) || fresh(n)
      ensures forall n :: n in watches.repr ==> n in old(watches.repr) || fresh(n)
      ensures others <= rest && (path == null ==> rest == others)
      ensures var p := Prepared(s.dirs, s.world.offsets);
        var q := if path == null then p else Prepare(p, wd, files, path.text, tree(path.text));
        InStep(Sight(s.world.(offsets := q.offsets), q.dirs), rest)
    {
      ghost var p := Prepared(s.dirs, s.world.offsets);
      rest := others;
      if path != null {
        var more := SetupWatches(path, tree(path.text), wd, files, p, others);
        ghost var q := Prepare(p, wd, files, path.text, tree(path.text));
        StartsInStep(q, more, files);
        rest := tail.memory.live - Strings(tail.Keys());
      }
    }

    /** The modify branch. */
    method HandleModify(event: int, mask: nat, len: nat, name: string, files: map<string, string>,
                        ghost s: Sight, ghost e: Notified, ghost others: set<Str>)
      requires Same(event, mask, len, name, e) && InStep(s, others) && s.world.files == files
      requires Modifies(s.dirs, e) ==> Hashable(Text(PathOf(s.dirs[e.wd], e.name)))
      modifies tail, tail.memory, tail.offsets`nodes, tail.offsets`repr, tail.offsets.buckets, tail.offsets.repr
      ensures forall n :: n in tail.offsets.repr ==> n in old(tail.offsets.repr) || fresh(n)
      ensures InStep(if Modifies(s.dirs, e) then s.(world := Step(s.world, Modified(PathOf(s.dirs[e.wd], e.name))))
        else s, others)
    {
      if len > 0 && Has(mask, IN_MODIFY) && !Has(mask, IN_ISDIR) {
        WatchingMore(watches.State(), s.dirs, others, tail.memory.live);
        var path := EventPath(event, name, s.dirs);
        PassOn(path, files, s, others);
      }
    }

    /** Has the tail notice a modification; the watches stay as they are. */
    method PassOn(path: Str?, files: map<string, string>, ghost s: Sight, ghost others: set<Str>)
      requires Valid() && tail.Follows(s.world) && s.world.files == files && Watching(watches.State(), s.dirs, others)
      requires others !! Strings(tail.Keys()) &&
        tail.memory.live == others + Strings(tail.Keys()) + if path == null then {} else {path}
      requires path != null ==> path !in others && Pointer(path) !in tail.Keys() && Hashable(Text(path.text))
      modifies tail, tail.memory, tail.offsets`nodes, tail.offsets`repr, tail.offsets.buckets, tail.offsets.repr
      ensures forall n :: n in tail.offsets.repr ==> n in old(tail.offsets.repr) || fresh(n)
      ensures InStep(if path == null then s else s.(world := Step(s.world, Modified(path.text))), others)
    {
      tail.Notice(path, files, s.world, others);
    }

    /** Handles one notification: the branch of creations, then that of modifications. */
    method HandleEvent(event: int, mask: nat, len: nat, name: string, wd: string -> int, tree: string -> Branch,
                       files: map<string, string>, ghost s: Sight, ghost e: Notified, ghost others: set<Str>)
      returns (ghost rest: set<Str>)
      requires Same(event, mask, len, name, e) && !Has(mask, IN_DELETE)
      requires InStep(s, others) && s.world.files == files && Nameable(s.dirs, e, tree)
      modifies tail, tail.memory, tail.offsets`nodes, tail.offsets`repr, tail.offsets.buckets, tail.offsets.repr
      modifies watches`nodes, watches`repr, watches.buckets, watches.repr
      ensures forall n :: n in tail.offsets.repr ==> n in old(tail.offsets.repr) || fresh(n)
      ensures forall n :: n in watches.repr ==> n in old(watches.repr) || fresh(n)
      ensures InStep(Moved(s, e, wd, tree), rest) && others <= rest && (!Creates(s.dirs, e) ==> rest == others)
    {
      rest := HandleCreate(event, mask, len, name, wd, tree, files, s, e, others);
      ghost var t := if Creates(s.dirs, e) then Moved(s, e, wd, tree) else s;
      HandleModify(event, mask, len, name, files, t, e, rest);
    }

    /** Handles the notification packed at a position, and tells where the next one is. */
    method HandleAt(buffer: seq<nat>, i: nat, wd: string -> int, tree: string -> Branch, files: map<string, string>,
                    ghost events: seq<Notified>, ghost k: nat, ghost s: Sight, ghost others: set<Str>)
      returns (next: nat, ghost rest: set<Str>)
      requires PackedFrom(buffer, i, events, k) && i < |buffer| && k < |events|
      requires !Has(events[k].mask, IN_DELETE) && Nameable(s.dirs, events[k], tree)
      requires InStep(s, others) && s.world.files == files
      modifies tail, tail.memory, tail.offsets`nodes, tail.offsets`repr, tail.offsets.buckets, tail.offsets.repr
      modifies watches`nodes, watches`repr, watches.buckets, watches.repr
      ensures i < next && PackedFrom(buffer, next, events, k + 1)
      ensures forall n :: n in tail.offsets.repr ==> n in old(tail.offsets.repr) || fresh(n)
      ensures forall n :: n in watches.repr ==> n in old(watches.repr) || fresh(n)
      ensures InStep(Moved(s, events[k], wd, tree), rest) && others <= rest &&
        (!Creates(s.dirs, events[k]) ==> rest == others)
    {
      var event, mask, len, name := ReadEvent(buffer, i, events, k);
      next := i + EVENT_SIZE + len;
      rest := HandleEvent(event, mask, len, name, wd, tree, files, s, events[k], others);
    }

    /** Walks a buffer of packed notifications: the log, the offsets and the watches move through
        the modifications and the new directories they tell of, in order, and no path is left
        over but for those of new directories. */
    method OnEvent(buffer: seq<nat>, wd: string -> int, tree: string -> Branch, files: map<string, string>,
                   ghost events: seq<Notified>, ghost s: Sight, ghost others: set<Str>) returns (ghost rest: set<Str>)
      requires PackedFrom(buffer, 0, events, 0) && AllHandled(s, events, wd, tree)
      requires InStep(s, others) && s.world.files == files
      modifies tail, tail.memory, tail.offsets`nodes, tail.offsets`repr, tail.offsets.buckets, tail.offsets.repr
      modifies watches`nodes, watches`repr, watches.buckets, watches.repr
      ensures InStep(MovedThrough(s, events, wd, tree, |events|), rest)
      ensures AsTold(s.world, MovedThrough(s, events, wd, tree, |events|), ToldBy(s, events, wd, tree, |events|))
      ensures others <= rest && (NoneCreated(s, events, wd, tree, |events|) ==> rest == others)
    {
      rest := others;
      var i := 0;
      ghost var k := 0;
      while i < |buffer|
        invariant Walked(buffer, i, events, k, s, wd, tree, others, rest)
        invariant forall n :: n in tail.offsets.repr ==> n in old(tail.offsets.repr) || fresh(n)
        invariant forall n :: n in watches.repr ==> n in old(watches.repr) || fresh(n)
        decreases |buffer| - i
      {
        i, rest := HandleNext(buffer, i, wd, tree, files, events, k, s, others, rest);
        k := k + 1;
      }
      AllWalked(buffer, i, events, k);
      AfterTold(s, events, wd, tree, k);
    }

    /** The walk has come to a position, having handled `k` notifications. */
    ghost predicate Walked(buffer: seq<nat>, i: nat, events: seq<Notified>, k: nat, s: Sight, wd: string -> int,
                           tree: string -> Branch,
                           others: set<Str>, rest: set<Str>)
      reads tail, tail.memory, tail.offsets, tail.offsets.buckets, tail.offsets.repr
      reads watches, watches.buckets, watches.repr
    {
      && PackedFrom(buffer, i, events, k) && InStep(MovedThrough(s, events, wd, tree, k), rest)
      && others <= rest && (NoneCreated(s, events, wd, tree, k) ==> rest == others)
    }

    method HandleNext(buffer: seq<nat>, i: nat, wd: string -> int, tree: string -> Branch, files: map<string, string>,
                      ghost events: seq<Notified>, ghost k: nat, ghost s: Sight, ghost others: set<Str>,
                      ghost more: set<Str>)
      returns (next: nat, ghost rest: set<Str>)
      requires Walked(buffer, i, events, k, s, wd, tree, others, more) && i < |buffer|
      requires AllHandled(s, events, wd, tree) && s.world.files == files
      modifies tail, tail.memory, tail.offsets`nodes, tail.offsets`repr, tail.offsets.buckets, tail.offsets.repr
      modifies watches`nodes, watches`repr, watches.buckets, watches.repr
      ensures i < next && Walked(buffer, next, events, k + 1, s, wd, tree, others, rest)
      ensures forall n :: n in tail.offsets.repr ==> n in old(tail.offsets.repr) || fresh(n)
      ensures forall n :: n in watches.repr ==> n in old(watches.repr) || fresh(n)
    {
      NextPacked(buffer, i, events, k);
      FilesStay(s, events, wd, tree, k);
      next, rest := HandleAt(buffer, i, wd, tree, files, events, k, MovedThrough(s, events, wd, tree, k), more);
    }
  }

  lemma {:induction false} FilesStay(s: Sight, events: seq<Notified>, wd: string -> int, tree: string -> Branch, n: nat)
    requires n <= |events|
    ensures MovedThrough(s, events, wd, tree, n).world.files == s.world.files
  {
    if n > 0 {
      FilesStay(s, events, wd, tree, n - 1);
    }
  }

  lemma AllWalked(buffer: seq<nat>, i: nat, events: seq<Notified>, k: nat)
    requires PackedFrom(buffer, i, events, k) && i == |buffer|
    ensures k == |events|
  {
    assert events[k..] == [];
  }

  /** The notification as it has been read. */
  ghost predicate Same(event: int, mask: nat, len: nat, name: string, e: Notified) {
    event == e.wd && mask == e.mask && name == e.name && (len > 0 <==> name != [])
  }

  /** Deletions are not asked for, and all keys have an index in the table. */
  ghost predicate AllHandled(s: Sight, events: seq<Notified>, wd: string -> int, tree: string -> Branch) {
    forall k :: 0 <= k < |events| ==>
      !Has(events[k].mask, IN_DELETE) && Nameable(MovedThrough(s, events, wd, tree, k).dirs, events[k], tree)
  }

  ghost predicate NoneCreated(s: Sight, events: seq<Notified>, wd: string -> int, tree: string -> Branch, n: nat)
    requires n <= |events|
  {
    forall k :: 0 <= k < n ==> !Creates(MovedThrough(s, events, wd, tree, k).dirs, events[k])
  }

  /** From a position on, the buffer holds the notifications from number `k` on. */
  ghost predicate PackedFrom(b: seq<nat>, i: nat, events: seq<Notified>, k: nat) {
    && (forall j :: 0 <= j < |events| ==> WellFormed(events[j]))
    && i <= |b| && k <= |events| && b[i..] == PackedAll(events[k..])
  }

  lemma NextPacked(b: seq<nat>, i: nat, events: seq<Notified>, k: nat)
    requires PackedFrom(b, i, events, k) && i < |b|
    ensures k < |events| && StandsAt(b, i, Packed(events[k])) && PackedFrom(b, i + |Packed(events[k])|, events, k + 1)
  {
    var p, rest := Packed(events[k]), PackedAll(events[k + 1..]);
    assert events[k..][1..] == events[k + 1..];
    assert b[i..] == p + rest;
    assert forall j :: i <= j < |b| ==> b[j] == b[i..][j - i];
    assert b[i + |p|..] == b[i..][|p|..];
  }
}
