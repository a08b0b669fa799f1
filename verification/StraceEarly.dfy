/** What becomes of a process cloned by one whose own clone is not logged yet, and two logs in
    which that happens: in one the interpreter raises, in the other it looks for a file in
    the wrong directory. */
module StraceEarly {
  import opened Strace
  import opened StraceReference
  import opened StraceProof

  /** No change of directory by `pid` before `n`. */
  predicate Stays(env: Env, log: seq<Line>, n: nat, pid: Pid)
    requires n <= |log|
  {
    forall i :: 0 <= i < n && log[i].pid == pid ==> !CallAt(env, log, i).Chdir?
  }

  lemma {:induction false} NeverMoves(env: Env, log: seq<Line>, start: Path, n: nat, pid: Pid)
    requires n <= |log| && Stays(env, log, n, pid)
    ensures CwdFrom(env, log, start, n, pid) == start
  {
    if n > 0 {
      NeverMoves(env, log, start, n - 1, pid);
    }
  }

  /** A file that the child of an early clone uses before it changes directory is recorded as
      if the child had started where the command was started, and not where its parent was. */
  lemma EarlyAway(env: Env, log: seq<Line>, root: Pid, i: nat, j: nat)
    requires WellFormed(env, log, root) && Rooted(env, log, root) && NoneUnknown(env, log, root, |log|)
    requires i < |log| && Early(env, log, root, i)
    requires j < |log| && log[j].pid == CallAt(env, log, i).child && IsFile(CallAt(env, log, j))
    requires Stays(env, log, j, log[j].pid)
    ensures Interpret(env, log).Done?
    ensures var c, t := CallAt(env, log, j), Interpret(env, log).value;
      env.keep(env.normalise(c.name)) ==>
      env.normalise(c.name) in if Writes(c) then AllOutputs(t) else AllDeps(t)
    ensures var c, parent := CallAt(env, log, j), log[i].pid;
      NameAt(env, log, Starts(env, log, root), j)
        == Resolve(env, CwdFrom(env, log, StartCwd(env, log, root, parent), i, parent), c.name)
  {
    assert Active(env, log, j) && Acts(env, log, log[j].pid);
    NotRoot(env, log, root, i, log[j].pid);
    RecordedAtHome(env, log, root, i, j);
    UsedWhereBorn(env, log, root, i, j);
  }

  lemma RecordedAtHome(env: Env, log: seq<Line>, root: Pid, i: nat, j: nat)
    requires WellFormed(env, log, root) && NoneUnknown(env, log, root, |log|)
    requires i < |log| && Early(env, log, root, i) && CallAt(env, log, i).child != root
    requires j < |log| && log[j].pid == CallAt(env, log, i).child && IsFile(CallAt(env, log, j))
    requires Acts(env, log, log[j].pid) && Stays(env, log, j, log[j].pid)
    ensures Interpret(env, log).Done?
    ensures var c, t := CallAt(env, log, j), Interpret(env, log).value;
      env.keep(env.normalise(c.name)) ==>
      env.normalise(c.name) in if Writes(c) then AllOutputs(t) else AllDeps(t)
  {
    var seen := pid => SeenStart(env, log, root, pid);
    ChildBorn(env, log, root, seen, i, log[j].pid);
    CollectsSeen(env, log, root, seen);
    NeverMoves(env, log, ".", j, log[j].pid);
    AtHome(env, log, seen, j);
  }

  lemma UsedWhereBorn(env: Env, log: seq<Line>, root: Pid, i: nat, j: nat)
    requires WellFormed(env, log, root) && Rooted(env, log, root)
    requires i < |log| && Early(env, log, root, i) && CallAt(env, log, i).child != root
    requires j < |log| && log[j].pid == CallAt(env, log, i).child && IsFile(CallAt(env, log, j))
    requires Acts(env, log, log[j].pid) && Stays(env, log, j, log[j].pid)
    ensures var c, parent := CallAt(env, log, j), log[i].pid;
      NameAt(env, log, Starts(env, log, root), j)
        == Resolve(env, CwdFrom(env, log, StartCwd(env, log, root, parent), i, parent), c.name)
  {
    var child := log[j].pid;
    ChildBorn(env, log, root, pid => SeenStart(env, log, root, pid), i, child);
    StartOfChild(env, log, root, |log|, child);
    NeverMoves(env, log, StartCwd(env, log, root, child), j, child);
  }

  /** A call made in the directory that the command was started in. */
  lemma AtHome(env: Env, log: seq<Line>, start: Pid -> Path, j: nat)
    requires j < |log| && IsFile(CallAt(env, log, j)) && CwdFrom(env, log, start(log[j].pid), j, log[j].pid) == "."
    ensures var c := CallAt(env, log, j);
      env.keep(env.normalise(c.name)) ==> env.normalise(c.name) in FilesFrom(env, log, start, Writes(c))
  {
    var c := CallAt(env, log, j);
    TestsAgree(c);
    assert NameAt(env, log, start, j) == env.normalise(c.name);
    if env.keep(env.normalise(c.name)) {
      assert Records(env, log, start, j, Writes(c));
    }
  }

  // ----- two logs -----

  /** `parent` was cloned by `root` in the directory `dir`, and its clone is logged last. It has
      used a file, so its lines are delayed, and then cloned `child`, which uses the file too. */
  predicate UsedFirst(env: Env, log: seq<Line>, root: Pid, parent: Pid, child: Pid, dir: Path, name: Path) {
    && root != parent && parent != child && child != root && |log| == 6 && (forall i :: 0 <= i < 6 ==> log[i].Whole?)
    && log[0].pid == root && CallAt(env, log, 0) == Execve("cc")
    && log[1].pid == root && CallAt(env, log, 1) == Chdir(dir)
    && log[2].pid == parent && CallAt(env, log, 2) == Stat(name)
    && log[3].pid == parent && CallAt(env, log, 3) == Clone(child)
    && log[4].pid == child && CallAt(env, log, 4) == Stat(name)
    && log[5].pid == root && CallAt(env, log, 5) == Clone(parent)
  }

  /** The same, but `parent` clones before anything else. */
  predicate ClonedFirst(env: Env, log: seq<Line>, root: Pid, parent: Pid, child: Pid) {
    && root != parent && parent != child && child != root && |log| == 4 && (forall i :: 0 <= i < 4 ==> log[i].Whole?)
    && log[0].pid == root && CallAt(env, log, 0) == Execve("cc")
    && log[1].pid == parent && CallAt(env, log, 1) == Clone(child)
    && log[2].pid == child && CallAt(env, log, 2) == Stat("f")
    && log[3].pid == root && CallAt(env, log, 3) == Clone(parent)
  }

  lemma Born(env: Env, log: seq<Line>, b: nat, pid: Pid)
    requires b < |log| && forall i :: 0 <= i < |log| ==> (Clones(env, log, i, pid) <==> i == b)
    ensures Birth(env, log, 0, pid) == b && Birth(env, log, b + 1, pid) == |log|
  {
    assert Clones(env, log, b, pid);
  }

  lemma StartsAtRoot(env: Env, log: seq<Line>, root: Pid)
    requires |log| > 0 && log[0].pid == root && CallAt(env, log, 0).Execve?
    requires forall i :: 0 <= i < |log| ==> !Clones(env, log, i, root)
    ensures RootFirst(env, log, root)
  {
    assert Active(env, log, 0);
  }

  predicate BornOnce(env: Env, log: seq<Line>, b: nat, pid: Pid) {
    b < |log| && Birth(env, log, 0, pid) == b && Birth(env, log, b + 1, pid) == |log|
  }

  lemma UsedBirths(env: Env, log: seq<Line>, root: Pid, parent: Pid, child: Pid, dir: Path, name: Path)
    requires UsedFirst(env, log, root, parent, child, dir, name)
    ensures BornOnce(env, log, 5, parent) && BornOnce(env, log, 3, child) && RootFirst(env, log, root)
  {
    Born(env, log, 5, parent);
    Born(env, log, 3, child);
    StartsAtRoot(env, log, root);
  }

  lemma ThreeOnly(env: Env, log: seq<Line>, root: Pid, parent: Pid, child: Pid, dir: Path, name: Path)
    requires UsedFirst(env, log, root, parent, child, dir, name) || ClonedFirst(env, log, root, parent, child)
    ensures Only(log, root, parent, child)
  {
  }

  lemma UsedIsWellFormed(env: Env, log: seq<Line>, root: Pid, parent: Pid, child: Pid, dir: Path, name: Path)
    requires UsedFirst(env, log, root, parent, child, dir, name)
    ensures WellFormed(env, log, root) && Rooted(env, log, root) && BornOnce(env, log, 5, parent)
  {
    UsedBirths(env, log, root, parent, child, dir, name);
    ThreeOnly(env, log, root, parent, child, dir, name);
    ThreeProcesses(env, log, root, parent, child, 5, 3);
  }

  lemma ClonedBirths(env: Env, log: seq<Line>, root: Pid, parent: Pid, child: Pid)
    requires ClonedFirst(env, log, root, parent, child)
    ensures BornOnce(env, log, 3, parent) && BornOnce(env, log, 1, child) && RootFirst(env, log, root)
  {
    Born(env, log, 3, parent);
    Born(env, log, 1, child);
    StartsAtRoot(env, log, root);
  }

  predicate Only(log: seq<Line>, a: Pid, b: Pid, c: Pid) {
    forall i :: 0 <= i < |log| ==> log[i].Whole? && (log[i].pid == a || log[i].pid == b || log[i].pid == c)
  }

  lemma ThreeProcesses(env: Env, log: seq<Line>, root: Pid, parent: Pid, child: Pid, b: nat, c: nat)
    requires RootFirst(env, log, root) && BornOnce(env, log, b, parent) && BornOnce(env, log, c, child)
    requires Only(log, root, parent, child) && |log| >= 2 && log[b].pid == root && log[c].pid == parent
    ensures WellFormed(env, log, root) && Rooted(env, log, root)
  {
    assert Descends(env, log, root, |log| - 2, root) && Descends(env, log, root, |log| - 1, parent);
    assert Descends(env, log, root, |log|, parent) && Descends(env, log, root, |log|, child);
  }

  lemma RaisesWhenCloned(env: Env, log: seq<Line>, root: Pid, parent: Pid, child: Pid)
    requires ClonedFirst(env, log, root, parent, child)
    ensures WellFormed(env, log, root) && Interpret(env, log).Raised?
  {
    ClonedBirths(env, log, root, parent, child);
    ThreeOnly(env, log, root, parent, child, "", "");
    ThreeProcesses(env, log, root, parent, child, 3, 1);
    assert Unknown(env, log, root, 1);
    RaisesExact(env, log, root);
  }

  /** A change of directory at `k`, the only one of `pid` before `n`. */
  lemma {:induction false} MovesOnce(env: Env, log: seq<Line>, start: Path, k: nat, n: nat, pid: Pid)
    requires k < n <= |log| && log[k].pid == pid && CallAt(env, log, k).Chdir?
    requires forall i :: 0 <= i < n && i != k && log[i].pid == pid ==> !CallAt(env, log, i).Chdir?
    ensures CwdFrom(env, log, start, n, pid) == JoinPath(start, CallAt(env, log, k).cwd)
  {
    if n == k + 1 {
      NeverMoves(env, log, start, k, pid);
    } else {
      MovesOnce(env, log, start, k, n - 1, pid);
    }
  }

  lemma UsedEarly(env: Env, log: seq<Line>, root: Pid, parent: Pid, child: Pid, dir: Path, name: Path)
    requires UsedFirst(env, log, root, parent, child, dir, name) && BornOnce(env, log, 5, parent)
    ensures NoneUnknown(env, log, root, |log|) && Early(env, log, root, 3) && Acts(env, log, parent)
    ensures Stays(env, log, 4, child)
  {
    assert IsStep(CallAt(env, log, 2)) && Active(env, log, 2);
    assert !Unknown(env, log, root, 3);
  }

  /** A child of the root, which has changed directory once by then. */
  lemma StartsBelow(env: Env, log: seq<Line>, root: Pid, pid: Pid, k: nat, b: nat)
    requires Rooted(env, log, root) && BornOnce(env, log, b, pid) && pid != root && Acts(env, log, pid)
    requires k < b && log[b].pid == root && log[k].pid == root && CallAt(env, log, k).Chdir?
    requires forall i :: 0 <= i < b && i != k && log[i].pid == root ==> !CallAt(env, log, i).Chdir?
    ensures StartCwd(env, log, root, pid) == JoinPath(".", CallAt(env, log, k).cwd)
  {
    StartOfChild(env, log, root, |log|, pid);
    MovesOnce(env, log, ".", k, b, root);
  }

  /** The directories of the three calls that use a file. */
  lemma UsedDirectories(env: Env, log: seq<Line>, root: Pid, parent: Pid, child: Pid, dir: Path, name: Path)
    requires UsedFirst(env, log, root, parent, child, dir, name)
    requires Rooted(env, log, root) && BornOnce(env, log, 5, parent) && Acts(env, log, parent)
    ensures StartCwd(env, log, root, root) == "."
    ensures CwdFrom(env, log, StartCwd(env, log, root, parent), 2, parent) == JoinPath(".", dir)
    ensures CwdFrom(env, log, StartCwd(env, log, root, parent), 3, parent) == JoinPath(".", dir)
  {
    StartsBelow(env, log, root, parent, 1, 5);
    NeverMoves(env, log, JoinPath(".", dir), 2, parent);
    NeverMoves(env, log, JoinPath(".", dir), 3, parent);
  }

  lemma UsedNames(env: Env, log: seq<Line>, root: Pid, parent: Pid, child: Pid, dir: Path, name: Path,
                  start: Pid -> Path, i: nat)
    requires UsedFirst(env, log, root, parent, child, dir, name) && i < 6 && IsFile(CallAt(env, log, i))
    requires start(root) == "." && CwdFrom(env, log, start(parent), 2, parent) == JoinPath(".", dir)
    requires NameAt(env, log, start, 4) == Resolve(env, JoinPath(".", dir), name)
    ensures NameAt(env, log, start, i) in {env.normalise("cc"), Resolve(env, JoinPath(".", dir), name)}
  {
    assert i == 0 || i == 2 || i == 4;
    assert CwdFrom(env, log, start(root), 0, root) == ".";
  }

  lemma UsedFiles(env: Env, log: seq<Line>, root: Pid, parent: Pid, child: Pid, dir: Path, name: Path,
                  start: Pid -> Path)
    requires UsedFirst(env, log, root, parent, child, dir, name)
    requires start(root) == "." && CwdFrom(env, log, start(parent), 2, parent) == JoinPath(".", dir)
    requires NameAt(env, log, start, 4) == Resolve(env, JoinPath(".", dir), name)
    ensures FilesFrom(env, log, start, false) <= {env.normalise("cc"), Resolve(env, JoinPath(".", dir), name)}
  {
    forall i | 0 <= i < |log| && Records(env, log, start, i, false)
      ensures NameAt(env, log, start, i) in {env.normalise("cc"), Resolve(env, JoinPath(".", dir), name)}
    {
      UsedNames(env, log, root, parent, child, dir, name, start, i);
    }
  }

  /** `EarlyAway` for a file that is only looked at. */
  lemma StatAway(env: Env, log: seq<Line>, root: Pid, i: nat, j: nat, name: Path)
    requires WellFormed(env, log, root) && Rooted(env, log, root) && NoneUnknown(env, log, root, |log|)
    requires i < |log| && Early(env, log, root, i)
    requires j < |log| && log[j].pid == CallAt(env, log, i).child && CallAt(env, log, j) == Stat(name)
    requires Stays(env, log, j, log[j].pid)
    requires env.keep(env.normalise(name))
    ensures Interpret(env, log).Done? && env.normalise(name) in AllDeps(Interpret(env, log).value)
    ensures NameAt(env, log, Starts(env, log, root), j)
      == Resolve(env, CwdFrom(env, log, StartCwd(env, log, root, log[i].pid), i, log[i].pid), name)
  {
    EarlyAway(env, log, root, i, j);
    assert Resolve(env, ".", name) == env.normalise(name);
  }

  /** The interpreter records `name` below the directory the command was started in, where
      both processes use it below `dir`. */
  lemma RecordsElsewhere(env: Env, log: seq<Line>, root: Pid, parent: Pid, child: Pid, dir: Path, name: Path)
    requires UsedFirst(env, log, root, parent, child, dir, name)
    requires env.keep(env.normalise(name))
    ensures WellFormed(env, log, root) && Rooted(env, log, root)
    ensures Interpret(env, log).Done? && env.normalise(name) in AllDeps(Interpret(env, log).value)
    ensures Files(env, log, root, false) <= {env.normalise("cc"), Resolve(env, JoinPath(".", dir), name)}
  {
    UsedIsWellFormed(env, log, root, parent, child, dir, name);
    UsedEarly(env, log, root, parent, child, dir, name);
    UsedDirectories(env, log, root, parent, child, dir, name);
    StatAway(env, log, root, 3, 4, name);
    UsedFiles(env, log, root, parent, child, dir, name, Starts(env, log, root));
  }

  // ----- the two logs, written out -----

  function Parse(body: string): Call {
    match body
    case "execve" => Execve("cc")
    case "chdir" => Chdir("sub")
    case "stat" => Stat("f")
    case "clone 2" => Clone("2")
    case "clone 3" => Clone("3")
    case _ => Other
  }

  const ENV := Env(Parse, name => name, name => true)
  const USED_FIRST := [
    Whole("1", "execve"), Whole("1", "chdir"), Whole("2", "stat"), Whole("2", "clone 3"), Whole("3", "stat"),
      Whole("1", "clone 2")]
  const CLONED_FIRST := [Whole("1", "execve"), Whole("2", "clone 3"), Whole("3", "stat"), Whole("1", "clone 2")]

  lemma WrittenOut()
    ensures UsedFirst(ENV, USED_FIRST, "1", "2", "3", "sub", "f") && ClonedFirst(ENV, CLONED_FIRST, "1", "2", "3")
  {
    assert "1" != "2" && "2" != "3" && "3" != "1";
  }

  lemma Names()
    ensures ENV.normalise("f") == "f" && ENV.normalise("cc") == "cc" &&
      Resolve(ENV, JoinPath(".", "sub"), "f") == "./sub/f"
  {
  }

  /** The only files used are `cc` and `./sub/f`, and the interpreter records `f`. */
  lemma WrongDirectory()
    ensures WellFormed(ENV, USED_FIRST, "1") && Rooted(ENV, USED_FIRST, "1") && Interpret(ENV, USED_FIRST).Done?
    ensures "f" in AllDeps(Interpret(ENV, USED_FIRST).value) && Files(ENV, USED_FIRST, "1", false) <= {"cc", "./sub/f"}
  {
    WrittenOut();
    Names();
    RecordsElsewhere(ENV, USED_FIRST, "1", "2", "3", "sub", "f");
  }

  lemma UnknownParent()
    ensures WellFormed(ENV, CLONED_FIRST, "1") && Interpret(ENV, CLONED_FIRST).Raised?
  {
    WrittenOut();
    RaisesWhenCloned(ENV, CLONED_FIRST, "1", "2", "3");
  }
}
