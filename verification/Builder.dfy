/** The memoizing builder: a command is skipped when every file recorded of its last run
    still has the recorded hash. */
module Builder {
  import opened Attempts
  import opened Memoize

  class Builder {
    const world: World
    const inputsOnly: bool
    var files: Files                    // the file system, which commands change
    var deps: Deps
    var hashCache: map<Path, Hash>
    var checking: bool
    var outOfDateFlag: bool
    ghost var missed: map<Command, set<Path>>  // what recorded runs looked for in vain

    /** A session: `.deps` is as the last session wrote it, the hash cache is empty. */
    constructor (world: World, inputsOnly: bool, files: Files, deps: Deps, ghost missed: map<Command, set<Path>>)
      ensures this.world == world && this.inputsOnly == inputsOnly && this.files == files
      ensures this.deps == deps && this.missed == missed
      ensures hashCache == map[] && !checking && !outOfDateFlag
    {
      this.world, this.inputsOnly, this.files, this.deps, this.missed := world, inputsOnly, files, deps, missed;
      hashCache, checking, outOfDateFlag := map[], false, false;
    }

    /** The cache tells the truth about the files, and `.deps` about completed runs. */
    ghost predicate Valid()
      reads this
    {
      Coherent(world, files, hashCache) && Faithful(world, Knows())
    }

    ghost function Knows(): Known
      reads this
    {
      Known(deps, missed)
    }

    method CmdlineOutOfDate(command: Command) returns (outOfDate: bool)
      requires Coherent(world, files, hashCache)
      modifies this`hashCache
      ensures outOfDate == !UpToDate(world, files, deps, command, inputsOnly)
      ensures Coherent(world, files, hashCache)
    {
      if command !in deps { return true; }
      var left := deps[command].Keys;
      while left != {}
        invariant left <= deps[command].Keys
        invariant Coherent(world, files, hashCache)
        invariant forall p :: p in deps[command] && p !in left ==>
          SameHash(world, files, p, deps[command][p], inputsOnly)
      {
        var dep :| dep in left;
        left := left - {dep};
        var newHash: Option<Hash>;
        if dep in hashCache {
          newHash := Some(hashCache[dep]);
        } else {
          newHash := HashOf(world, files, dep);
          if newHash.Some? {
            hashCache := hashCache[dep := newHash.value];
          }
        }
        var old' := deps[command][dep];
        assert newHash == HashOf(world, files, dep);
        if newHash.None? || (newHash.value != old'.hash && (!inputsOnly || old'.kind == Input)) {
          assert !SameHash(world, files, dep, old', inputsOnly);
          return true;
        }
      }
      return false;
    }

    /** Hash the files read, from the cache when they are in it. */
    method HashInputs(report: Report) returns (dict: Entry)
      requires report.Tracked?
      modifies this`hashCache
      ensures Clean(world, files, old(hashCache), report) ==>
        Clean(world, files, hashCache, report) && dict == EntryFrom(world, files, report.deps, [])
    {
      ghost var clean := Clean(world, files, hashCache, report);
      dict := map[];
      var i := 0;
      while i < |report.deps|
        invariant 0 <= i <= |report.deps|
        invariant clean ==> Clean(world, files, hashCache, report)
        invariant clean ==> dict == EntryFrom(world, files, report.deps[..i], [])
      {
        var dep := report.deps[i];
        var hashed := if dep in hashCache then Some(hashCache[dep]) else HashOf(world, files, dep);
        if hashed.Some? {
          dict := dict[dep := Record(Input, hashed.value)];
          hashCache := hashCache[dep := hashed.value];
        }
        if clean {
          assert dep in report.deps + report.outputs;
          AddInput(world, files, report.deps, i);
        }
        i := i + 1;
      }
      assert report.deps[..i] == report.deps;
    }

    /** Hash the files written, whatever the cache says of them. */
    method HashOutputs(report: Report, inputs: Entry) returns (dict: Entry)
      requires report.Tracked?
      modifies this`hashCache
      ensures Clean(world, files, old(hashCache), report) && inputs == EntryFrom(world, files, report.deps, []) ==>
        Coherent(world, files, hashCache) && dict == EntryFrom(world, files, report.deps, report.outputs)
    {
      ghost var clean := Clean(world, files, hashCache, report) && inputs == EntryFrom(world, files, report.deps, []);
      dict := inputs;
      var i := 0;
      while i < |report.outputs|
        invariant 0 <= i <= |report.outputs|
        invariant clean ==> Clean(world, files, hashCache, report)
        invariant clean ==> dict == EntryFrom(world, files, report.deps, report.outputs[..i])
        invariant clean ==> Hashed(world, files, hashCache, report.outputs[..i])
      {
        var output := report.outputs[i];
        var hashed := HashOf(world, files, output);
        if hashed.Some? {
          dict := dict[output := Record(Output, hashed.value)];
          hashCache := hashCache[output := hashed.value];
        }
        if clean {
          assert output in report.deps + report.outputs;
          AddOutput(world, files, report.deps, report.outputs, i);
          assert report.outputs[..i + 1] == report.outputs[..i] + [output];
        }
        i := i + 1;
      }
      assert report.outputs[..i] == report.outputs;
    }

    /** Store what is known of a run that has just ended. */
    method Complete(command: Command, report: Report)
      modifies this`hashCache, this`deps
      ensures report.Untracked? ==> deps == old(deps) && hashCache == old(hashCache)
      ensures forall c :: c in old(deps) && c != command ==> c in deps && deps[c] == old(deps)[c]
      ensures Clean(world, files, old(hashCache), report) ==>
        deps == old(deps)[command := EntryFrom(world, files, report.deps, report.outputs)] &&
        Coherent(world, files, hashCache)
    {
      if report.Tracked? {
        var dict := HashInputs(report);
        dict := HashOutputs(report, dict);
        deps := deps[command := dict];
      }
    }

    /** Execute a command and record the run. */
    method Execute(command: Command)
      requires Valid()
      modifies this`files, this`deps, this`hashCache, this`missed
      ensures files == After(world, old(files), command)
      ensures GoodRun(world, old(files), command) ==>
        Valid() && Knows() == Learned(world, old(files), old(Knows()), command)
    {
      var outcome := world.exec(command, files);
      if GoodRun(world, files, command) {
        GoodRunIsClean(world, files, hashCache, command);
        RecordKeepsFaithful(world, files, Knows(), command);
      }
      files := files + outcome.writes;
      missed := missed[command := outcome.missed];
      Complete(command, outcome.report);
    }

    /** Run a command, unless it is up to date. Skipped or not, the file system ends as if the
        command had been executed, and as much is known, when a command that is up to date would
        still miss the files it missed. */
    method Run(command: Command)
      requires Coherent(world, files, hashCache)
      requires !checking ==> Faithful(world, Knows()) && Injective(world)
      modifies this
      ensures checking == old(checking)
      ensures checking ==> files == old(files) && Knows() == old(Knows()) && Coherent(world, files, hashCache)
      ensures !checking && UpToDate(world, old(files), old(deps), command, inputsOnly) ==>
        files == old(files) && Knows() == old(Knows()) && Valid()
      ensures !checking && !UpToDate(world, old(files), old(deps), command, inputsOnly) ==>
        files == After(world, old(files), command)
      ensures !checking && GoodRun(world, old(files), command) ==> Valid()
      ensures outOfDateFlag == (old(outOfDateFlag) || !UpToDate(world, old(files), old(deps), command, inputsOnly))
      ensures !checking && !inputsOnly && SkippedSafely(world, old(files), old(Knows()), command) ==>
        && files == After(world, old(files), command)
        && (GoodRun(world, old(files), command) ==> Knows() == Learned(world, old(files), old(Knows()), command))
    {
      var outOfDate := CmdlineOutOfDate(command);
      if !outOfDate {
        if !checking && !inputsOnly && StillMissed(files, Knows(), command) {
          UpToDateHasNoEffect(world, files, Knows(), command);
        }
        return;
      }
      outOfDateFlag := true;
      if !checking {
        Execute(command);
      }
    }

    /** Command number `i` of a build that began with the files `start` and the records `known`. */
    method BuildStep(cmds: seq<Command>, i: nat, ghost start: Files, ghost known: Known)
      requires Valid() && Injective(world) && !inputsOnly && !checking && i < |cmds|
      requires GoodRunAt(world, start, cmds, i) && NothingAppearsAt(world, start, known, cmds, i)
      requires files == FullBuild(world, start, cmds[..i]) && Knows() == LearnedAll(world, start, known, cmds[..i])
      modifies this
      ensures files == FullBuild(world, start, cmds[..i + 1]) &&
        Knows() == LearnedAll(world, start, known, cmds[..i + 1])
      ensures Valid() && !checking
    {
      FullBuildStep(world, start, known, cmds, i);
      Run(cmds[i]);
    }

    /** Incremental equals full: any sequence of commands, run with skipping, leaves the file
        system that executing all of them would leave, and the same records, as long as no file
        appears that the recorded run of an up-to-date command looked for in vain. */
    method Build(cmds: seq<Command>)
      requires Valid() && Injective(world) && !inputsOnly && !checking
      requires GoodRuns(world, files, cmds) && NothingAppears(world, files, Knows(), cmds)
      modifies this
      ensures files == FullBuild(world, old(files), cmds)
      ensures Knows() == LearnedAll(world, old(files), old(Knows()), cmds)
      ensures Valid() && !checking
    {
      ghost var start, known := files, Knows();
      var i := 0;
      while i < |cmds|
        invariant 0 <= i <= |cmds|
        invariant files == FullBuild(world, start, cmds[..i]) && Knows() == LearnedAll(world, start, known, cmds[..i])
        invariant Valid() && !checking
      {
        BuildStep(cmds, i, start, known);
        i := i + 1;
      }
      assert cmds[..i] == cmds;
    }

    /** Is any of the commands out of date? Nothing is run. */
    method OutOfDate(cmds: seq<Command>) returns (flag: bool)
      requires Coherent(world, files, hashCache)
      modifies this
      ensures flag <==> AnyOutOfDate(world, files, deps, cmds, |cmds|, inputsOnly)
      ensures files == old(files) && Knows() == old(Knows()) && Coherent(world, files, hashCache) && !checking
    {
      checking := true;
      outOfDateFlag := false;
      var i := 0;
      while i < |cmds|
        invariant 0 <= i <= |cmds|
        invariant checking && files == old(files) && Knows() == old(Knows()) && Coherent(world, files, hashCache)
        invariant outOfDateFlag <==> AnyOutOfDate(world, files, deps, cmds, i, inputsOnly)
      {
        Run(cmds[i]);
        i := i + 1;
      }
      checking := false;
      return outOfDateFlag;
    }

    /** Remove every recorded output that can be removed, the records file, and all records. A file
        goes exactly when some completed run reported it as an output. */
    method Autoclean(depsName: Path, locked: set<Path>)
      modifies this`files, this`deps
      ensures deps == map[] && Faithful(world, Knows())
      ensures forall p :: p in files <==>
        p in old(files) && (p in locked || (p != depsName && OnlyInput(old(deps), p)))
      ensures forall p :: p in files ==> files[p] == old(files)[p]
      ensures old(Faithful(world, Knows())) ==> forall p :: p in old(files) && p != depsName ==>
        (p !in files <==> p !in locked && WasOutput(world, old(Knows()), p))
      ensures old(Coherent(world, files, hashCache)) ==>
        (Coherent(world, files, hashCache) <==> hashCache.Keys <= files.Keys)
    {
      ghost var known := Knows();
      var left := RecordedOutputs(deps) + {depsName};
      ghost var outputs := left;
      NotOnlyInput(deps);
      deps := map[];
      while left != {}
        invariant left <= outputs && deps == map[]
        invariant files == old(files) - (outputs - left - locked)
      {
        var output :| output in left;
        if output !in locked {
          files := files - {output};
        }
        left := left - {output};
        assert files == old(files) - (outputs - left - locked);
      }
      if old(Faithful(world, Knows())) {
        RecordedExact(world, known);
      }
    }
  }

  /** Whatever is recorded of the file, it is recorded as read. */
  predicate OnlyInput(deps: Deps, p: Path) {
    forall c :: c in deps && p in deps[c] ==> deps[c][p].kind == Input
  }

  /** Some completed run of which the builder knows reported the file as an output. */
  ghost predicate WasOutput(w: World, k: Known, p: Path) {
    exists c, before :: RanFrom(w, k, c, before) && p in w.exec(c, before).report.outputs
  }

  lemma NotOnlyInput(deps: Deps)
    ensures forall p :: p in RecordedOutputs(deps) <==> !OnlyInput(deps, p)
  {
  }

  lemma OneRecord(w: World, k: Known, c: Command, before: Files, p: Path)
    requires RanFrom(w, k, c, before)
    ensures p in k.deps[c] && k.deps[c][p].kind == Output <==> p in w.exec(c, before).report.outputs
  {
    var o := w.exec(c, before);
    if p in o.report.outputs {
      assert p in o.writes && p in After(w, before, c) && p in o.report.deps + o.report.outputs;
    }
  }

  lemma RecordedExact(w: World, k: Known)
    requires Faithful(w, k)
    ensures forall p :: p in RecordedOutputs(k.deps) <==> WasOutput(w, k, p)
  {
    forall p ensures p in RecordedOutputs(k.deps) <==> WasOutput(w, k, p) {
      if c :| c in k.deps && p in k.deps[c] && k.deps[c][p].kind == Output {
        var before :| RanFrom(w, k, c, before);
        OneRecord(w, k, c, before, p);
      }
      if WasOutput(w, k, p) {
        var c, before :| RanFrom(w, k, c, before) && p in w.exec(c, before).report.outputs;
        OneRecord(w, k, c, before, p);
      }
    }
  }

  /** After a build, whatever was known before it, all that the last run of one of its commands
      reported as an output counts as one. */
  lemma BuiltIsRecorded(w: World, files: Files, k: Known, cmds: seq<Command>, i: nat)
    requires GoodRuns(w, files, cmds) && i < |cmds| && forall j :: i < j < |cmds| ==> cmds[j] != cmds[i]
    ensures RanFrom(w, LearnedAll(w, files, k, cmds), cmds[i], FullBuild(w, files, cmds[..i]))
    ensures forall p :: p in w.exec(cmds[i], FullBuild(w, files, cmds[..i])).report.outputs ==>
      WasOutput(w, LearnedAll(w, files, k, cmds), p)
  {
    LastRunKnown(w, files, k, cmds, i);
  }

  lemma {:induction false} LastRunKnown(w: World, files: Files, k: Known, cmds: seq<Command>, i: nat)
    requires GoodRuns(w, files, cmds) && i < |cmds| && forall j :: i < j < |cmds| ==> cmds[j] != cmds[i]
    ensures RanFrom(w, LearnedAll(w, files, k, cmds), cmds[i], FullBuild(w, files, cmds[..i]))
    decreases |cmds|
  {
    var n := |cmds| - 1;
    assert GoodRunAt(w, files, cmds, i);
    if i < n {
      var most := cmds[..n];
      assert most[..i] == cmds[..i] && most[i] == cmds[i];
      forall j | 0 <= j < |most| ensures GoodRunAt(w, files, most, j) {
        assert GoodRunAt(w, files, cmds, j) && most[..j] == cmds[..j];
      }
      LastRunKnown(w, files, k, most, i);
    }
  }

  predicate AnyOutOfDate(w: World, files: Files, deps: Deps, cmds: seq<Command>, n: nat, inputsOnly: bool)
    requires n <= |cmds|
  {
    exists i :: 0 <= i < n && !UpToDate(w, files, deps, cmds[i], inputsOnly)
  }

  function RecordedOutputs(deps: Deps): set<Path> {
    set c, p | c in deps && p in deps[c] && deps[c][p].kind == Output :: p
  }

  /** A session: what the files were edited to since the last one, then the commands run. */
  datatype Session = Session(edited: Files, cmds: seq<Command>)

  /** What is known after the first `n` sessions. */
  function KnownAfter(world: World, known: Known, sessions: seq<Session>, n: nat): Known
    requires n <= |sessions|
  {
    if n == 0 then known
    else LearnedAll(world, sessions[n - 1].edited, KnownAfter(world, known, sessions, n - 1), sessions[n - 1].cmds)
  }

  /** Every session's commands have footprints, and nothing that one missed appears unnoticed. */
  ghost predicate GoodSession(world: World, known: Known, s: Session) {
    Faithful(world, known) && GoodRuns(world, s.edited, s.cmds) && NothingAppears(world, s.edited, known, s.cmds)
  }

  ghost predicate GoodSessions(world: World, known: Known, sessions: seq<Session>) {
    Faithful(world, known) && forall i :: 0 <= i < |sessions| ==> GoodSessionAt(world, known, sessions, i)
  }

  ghost predicate GoodSessionAt(world: World, known: Known, sessions: seq<Session>, i: nat)
    requires i < |sessions|
  {
    && GoodRuns(world, sessions[i].edited, sessions[i].cmds)
    && NothingAppears(world, sessions[i].edited, KnownAfter(world, known, sessions, i), sessions[i].cmds)
  }

  /** Good runs keep all records faithful. */
  lemma {:induction false} LearnedAllFaithful(w: World, files: Files, k: Known, cmds: seq<Command>, n: nat)
    requires n <= |cmds| && Faithful(w, k) && GoodRuns(w, files, cmds)
    ensures Faithful(w, LearnedAll(w, files, k, cmds[..n]))
  {
    if n == 0 {
      assert cmds[..n] == [];
    } else {
      LearnedAllFaithful(w, files, k, cmds, n - 1);
      FullBuildStep(w, files, k, cmds, n - 1);
      OneMoreFaithful(w, files, cmds, n - 1, LearnedAll(w, files, k, cmds[..n - 1]));
    }
  }

  lemma OneMoreFaithful(w: World, files: Files, cmds: seq<Command>, n: nat, known: Known)
    requires n < |cmds| && GoodRuns(w, files, cmds) && Faithful(w, known)
    ensures Faithful(w, Learned(w, FullBuild(w, files, cmds[..n]), known, cmds[n]))
  {
    assert GoodRunAt(w, files, cmds, n);
    RecordKeepsFaithful(w, FullBuild(w, files, cmds[..n]), known, cmds[n]);
  }

  lemma {:induction false} SessionIsGood(world: World, known: Known, sessions: seq<Session>, n: nat)
    requires n <= |sessions| && GoodSessions(world, known, sessions)
    ensures Faithful(world, KnownAfter(world, known, sessions, n))
    ensures n < |sessions| ==> GoodSession(world, KnownAfter(world, known, sessions, n), sessions[n])
  {
    assert n < |sessions| ==> GoodSessionAt(world, known, sessions, n);
    if n > 0 {
      var last := sessions[n - 1];
      assert GoodSessionAt(world, known, sessions, n - 1);
      SessionIsGood(world, known, sessions, n - 1);
      LearnedAllFaithful(world, last.edited, KnownAfter(world, known, sessions, n - 1), last.cmds, |last.cmds|);
      assert last.cmds[..|last.cmds|] == last.cmds;
    }
  }

  /** Session number `n`: its files are as they were edited, its hash cache is empty. */
  method RunSession(world: World, sessions: seq<Session>, n: nat, recorded: Deps, ghost known: Known)
    returns (end: Files, deps: Deps)
    requires Injective(world) && n < |sessions| && GoodSessions(world, known, sessions)
    requires recorded == KnownAfter(world, known, sessions, n).deps
    ensures end == FullBuild(world, sessions[n].edited, sessions[n].cmds)
    ensures deps == KnownAfter(world, known, sessions, n + 1).deps
  {
    SessionIsGood(world, known, sessions, n);
    ghost var now := KnownAfter(world, known, sessions, n);
    var builder := new Builder(world, false, sessions[n].edited, recorded, now.missed);
    assert builder.Knows() == now;
    builder.Build(sessions[n].cmds);
    end, deps := builder.files, builder.deps;
  }

  /** Whatever happens to the files between sessions, each session ends as a full build of its
      own starting point would: `.deps` outlives it, the hash cache does not. */
  method Sessions(world: World, recorded: Deps, sessions: seq<Session>, ghost missed: map<Command, set<Path>>)
    returns (ends: seq<Files>, deps: Deps)
    requires Injective(world) && GoodSessions(world, Known(recorded, missed), sessions)
    ensures |ends| == |sessions|
    ensures forall i :: 0 <= i < |ends| ==> ends[i] == FullBuild(world, sessions[i].edited, sessions[i].cmds)
    ensures deps == KnownAfter(world, Known(recorded, missed), sessions, |sessions|).deps
    ensures Faithful(world, KnownAfter(world, Known(recorded, missed), sessions, |sessions|))
  {
    ends, deps := [], recorded;
    ghost var known := Known(recorded, missed);
    for i := 0 to |sessions|
      invariant |ends| == i && deps == KnownAfter(world, known, sessions, i).deps
      invariant forall j :: 0 <= j < i ==> ends[j] == FullBuild(world, sessions[j].edited, sessions[j].cmds)
    {
      var end, learned := RunSession(world, sessions, i, deps, known);
      ends, deps := ends + [end], learned;
    }
    SessionIsGood(world, known, sessions, |sessions|);
  }

  predicate Hashed(w: World, files: Files, cache: map<Path, Hash>, paths: seq<Path>) {
    forall p :: p in paths && p in cache ==> p in files && cache[p] == w.hash(files[p])
  }

  lemma AddInput(w: World, files: Files, deps: seq<Path>, i: nat)
    requires i < |deps| && deps[i] in files
    ensures EntryFrom(w, files, deps[..i + 1], []) ==
      EntryFrom(w, files, deps[..i], [])[deps[i] := Record(Input, w.hash(files[deps[i]]))]
  {
    assert deps[..i + 1] == deps[..i] + [deps[i]];
  }

  lemma AddOutput(w: World, files: Files, deps: seq<Path>, outputs: seq<Path>, i: nat)
    requires i < |outputs| && outputs[i] in files
    ensures EntryFrom(w, files, deps, outputs[..i + 1]) ==
      EntryFrom(w, files, deps, outputs[..i])[outputs[i] := Record(Output, w.hash(files[outputs[i]]))]
  {
    assert outputs[..i + 1] == outputs[..i] + [outputs[i]];
  }
}
