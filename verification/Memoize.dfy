/** What the memoizing builder relies on: the file system, commands and their recorded runs. */
module Memoize {
  import opened Attempts

  type Path = string
  type Command = string
  type Content = string
  type Hash = string
  type Files = map<Path, Content>

  /** What a runner reports: nothing (a runner that cannot trace), or the files it saw read
      and written. */
  datatype Report = Untracked | Tracked(deps: seq<Path>, outputs: seq<Path>)

  /** What running does: what the runner reports, the files the command looked for and did not
      find, which no runner reports, and what it wrote. */
  datatype Outcome = Outcome(report: Report, missed: set<Path>, writes: Files)

  /** The hasher, and what each command does to a file system. */
  datatype World = World(hash: Content -> Hash, exec: (Command, Files) -> Outcome)

  datatype Kind = Input | Output

  datatype Record = Record(kind: Kind, hash: Hash)

  /** One command's part of the `.deps` file. */
  type Entry = map<Path, Record>

  type Deps = map<Command, Entry>

  /** What is recorded of completed runs, and beside it the files they looked for in vain. */
  datatype Known = Known(deps: Deps, missed: map<Command, set<Path>>)

  function HashOf(w: World, files: Files, p: Path): Option<Hash> {
    if p in files then Some(w.hash(files[p])) else None
  }

  /** The file system once the command has run. */
  function After(w: World, files: Files, c: Command): Files {
    files + w.exec(c, files).writes
  }

  /** Every command executed, in order. */
  function FullBuild(w: World, files: Files, cmds: seq<Command>): Files {
    if cmds == [] then files else After(w, FullBuild(w, files, cmds[..|cmds| - 1]), cmds[|cmds| - 1])
  }

  ghost predicate Injective(w: World) {
    forall a, b :: w.hash(a) == w.hash(b) ==> a == b
  }

  predicate AgreeOn(a: Files, b: Files, paths: seq<Path>) {
    forall p :: p in paths ==> (p in a <==> p in b) && (p in a && p in b ==> a[p] == b[p])
  }

  /** A run with a footprint: the command was traced, it read only files it reported, all of
      which exist, it wrote exactly the files it reported as outputs, and read none of them.
      Whatever else may be there, it does the same as long as it reads the same and finds none
      of the files it missed. */
  ghost predicate GoodRun(w: World, files: Files, c: Command) {
    var o := w.exec(c, files);
    && o.report.Tracked?
    && (forall p :: p in o.report.deps ==> p in files && p !in o.report.outputs)
    && (forall p :: p in o.writes <==> p in o.report.outputs)
    && o.missed !! files.Keys
    && (forall other: Files :: AgreeOn(files, other, o.report.deps) && o.missed !! other.Keys ==> w.exec(c, other) == o)
  }

  ghost predicate GoodRuns(w: World, files: Files, cmds: seq<Command>) {
    forall i :: 0 <= i < |cmds| ==> GoodRunAt(w, files, cmds, i)
  }

  ghost predicate GoodRunAt(w: World, files: Files, cmds: seq<Command>, i: nat)
    requires i < |cmds|
  {
    GoodRun(w, FullBuild(w, files, cmds[..i]), cmds[i])
  }

  /** What is recorded of a run that ended with `files`: the hash of each file it reported. */
  function EntryFrom(w: World, files: Files, deps: seq<Path>, outputs: seq<Path>): Entry {
    map p | p in deps + outputs && p in files :: Record(if p in outputs then Output else Input, w.hash(files[p]))
  }

  function EntryOf(w: World, files: Files, c: Command): Entry
    requires w.exec(c, files).report.Tracked?
  {
    var report := w.exec(c, files).report;
    EntryFrom(w, After(w, files, c), report.deps, report.outputs)
  }

  /** `before` is the file system from which a completed run was recorded. */
  ghost predicate RanFrom(w: World, k: Known, c: Command, before: Files) {
    && GoodRun(w, before, c) && c in k.deps && k.deps[c] == EntryOf(w, before, c)
    && c in k.missed && k.missed[c] == w.exec(c, before).missed
  }

  /** Each entry records some completed run, from some file system. */
  ghost predicate Faithful(w: World, k: Known) {
    forall c :: c in k.deps ==> exists before :: RanFrom(w, k, c, before)
  }

  /** What is known once the command has run. */
  function Learned(w: World, files: Files, k: Known, c: Command): Known {
    var o := w.exec(c, files);
    if o.report.Untracked? then k
    else Known(k.deps[c := EntryOf(w, files, c)], k.missed[c := o.missed])
  }

  /** What is known once every command has run, in order. */
  function LearnedAll(w: World, files: Files, k: Known, cmds: seq<Command>): Known {
    if cmds == [] then k
    else
      var n := |cmds| - 1;
      Learned(w, FullBuild(w, files, cmds[..n]), LearnedAll(w, files, k, cmds[..n]), cmds[n])
  }

  /** Cached hashes are those of the current files. */
  predicate Coherent(w: World, files: Files, cache: map<Path, Hash>) {
    forall p :: p in cache ==> p in files && cache[p] == w.hash(files[p])
  }

  /** A report after which the files read are as they were before the run, and all exist. */
  predicate Clean(w: World, files: Files, cache: map<Path, Hash>, report: Report) {
    && report.Tracked?
    && (forall p :: p in report.deps ==> p !in report.outputs)
    && (forall p :: p in report.deps + report.outputs ==> p in files)
    && (forall p :: p in cache && p !in report.outputs ==> p in files && cache[p] == w.hash(files[p]))
  }

  predicate SameHash(w: World, files: Files, p: Path, r: Record, inputsOnly: bool) {
    p in files && (w.hash(files[p]) == r.hash || (inputsOnly && r.kind == Output))
  }

  /** The command was recorded and every file of its record still has the recorded hash. */
  predicate UpToDate(w: World, files: Files, deps: Deps, c: Command, inputsOnly: bool) {
    c in deps && forall p :: p in deps[c] ==> SameHash(w, files, p, deps[c][p], inputsOnly)
  }

  /** None of the files that the recorded run looked for in vain is there now. */
  predicate StillMissed(files: Files, k: Known, c: Command) {
    c in k.missed && k.missed[c] !! files.Keys
  }

  predicate SkippedSafely(w: World, files: Files, k: Known, c: Command) {
    UpToDate(w, files, k.deps, c, false) ==> StillMissed(files, k, c)
  }

  /** Whenever a command of the build is up to date, what its recorded run missed is still missing. */
  predicate NothingAppears(w: World, files: Files, k: Known, cmds: seq<Command>) {
    forall i :: 0 <= i < |cmds| ==> NothingAppearsAt(w, files, k, cmds, i)
  }

  predicate NothingAppearsAt(w: World, files: Files, k: Known, cmds: seq<Command>, i: nat)
    requires i < |cmds|
  {
    SkippedSafely(w, FullBuild(w, files, cmds[..i]), LearnedAll(w, files, k, cmds[..i]), cmds[i])
  }

  // ----- skipping is as good as running -----

  lemma SameAsRecorded(w: World, files: Files, deps: Deps, c: Command, before: Files, p: Path)
    requires Injective(w) && UpToDate(w, files, deps, c, false)
    requires GoodRun(w, before, c) && deps[c] == EntryOf(w, before, c)
    requires p in w.exec(c, before).report.deps + w.exec(c, before).report.outputs
    ensures p in files && p in After(w, before, c) && files[p] == After(w, before, c)[p]
  {
    assert p in deps[c];
    assert SameHash(w, files, p, deps[c][p], false);
  }

  lemma SameRun(w: World, files: Files, before: Files, c: Command)
    requires GoodRun(w, before, c) && w.exec(c, before).missed !! files.Keys
    requires forall p :: p in w.exec(c, before).report.deps + w.exec(c, before).report.outputs ==>
      p in files && p in After(w, before, c) && files[p] == After(w, before, c)[p]
    ensures After(w, files, c) == files && w.exec(c, files) == w.exec(c, before)
  {
    var o := w.exec(c, before);
    forall p | p in o.report.deps + o.report.outputs ensures p in files && files[p] == After(w, before, c)[p] {
    }
    assert AgreeOn(before, files, o.report.deps) by {
      forall p | p in o.report.deps ensures p in files && p in before && files[p] == before[p] {
        assert p in o.report.deps + o.report.outputs;
      }
    }
    forall p | p in o.writes ensures p in files && files[p] == o.writes[p] {
      assert p in o.report.deps + o.report.outputs;
    }
  }

  /** An up-to-date command would change nothing if it ran, and what is known of it would stay
      the same, when the files it looked for in vain are still missing. */
  lemma UpToDateHasNoEffect(w: World, files: Files, k: Known, c: Command)
    requires Injective(w) && Faithful(w, k) && UpToDate(w, files, k.deps, c, false) && StillMissed(files, k, c)
    ensures After(w, files, c) == files && Learned(w, files, k, c) == k
  {
    var before :| RanFrom(w, k, c, before);
    RecordedHasNoEffect(w, files, k, c, before);
  }

  lemma RecordedHasNoEffect(w: World, files: Files, k: Known, c: Command, before: Files)
    requires Injective(w) && RanFrom(w, k, c, before) && UpToDate(w, files, k.deps, c, false) &&
      StillMissed(files, k, c)
    ensures After(w, files, c) == files && Learned(w, files, k, c) == k
  {
    forall p | p in w.exec(c, before).report.deps + w.exec(c, before).report.outputs
      ensures p in files && p in After(w, before, c) && files[p] == After(w, before, c)[p]
    {
      SameAsRecorded(w, files, k.deps, c, before, p);
    }
    SameRun(w, files, before, c);
    SameEntry(w, files, After(w, before, c), w.exec(c, before).report.deps, w.exec(c, before).report.outputs);
    assert k.deps[c := k.deps[c]] == k.deps && k.missed[c := k.missed[c]] == k.missed;
  }

  lemma SameEntry(w: World, a: Files, b: Files, deps: seq<Path>, outputs: seq<Path>)
    requires forall p :: p in deps + outputs ==> p in a && p in b && a[p] == b[p]
    ensures EntryFrom(w, a, deps, outputs) == EntryFrom(w, b, deps, outputs)
  {
  }

  /** The other way round: with `inputsOnly` false, a command whose run would be good and
      whose record is of this very file system is up to date. */
  lemma FreshRecordIsUpToDate(w: World, files: Files, deps: Deps, c: Command)
    requires GoodRun(w, files, c) && c in deps && deps[c] == EntryOf(w, files, c)
    ensures UpToDate(w, After(w, files, c), deps, c, false)
  {
  }

  /** Records stay faithful whatever happens to the files, and gain a faithful one. */
  lemma RecordKeepsFaithful(w: World, files: Files, k: Known, c: Command)
    requires Faithful(w, k) && GoodRun(w, files, c)
    ensures Faithful(w, Learned(w, files, k, c))
  {
    var l := Learned(w, files, k, c);
    forall d | d in l.deps ensures exists before :: RanFrom(w, l, d, before) {
      if d == c {
        assert RanFrom(w, l, c, files);
      } else {
        var before :| RanFrom(w, k, d, before);
        StillRanFrom(w, k, l, d, before);
      }
    }
  }

  lemma StillRanFrom(w: World, k: Known, l: Known, c: Command, before: Files)
    requires RanFrom(w, k, c, before) && c in l.deps && l.deps[c] == k.deps[c] && c in l.missed &&
      l.missed[c] == k.missed[c]
    ensures RanFrom(w, l, c, before)
  {
  }

  /** After a good run the report is clean, whatever the cache held that was true before. */
  lemma GoodRunIsClean(w: World, files: Files, cache: map<Path, Hash>, c: Command)
    requires GoodRun(w, files, c) && Coherent(w, files, cache)
    ensures Clean(w, After(w, files, c), cache, w.exec(c, files).report)
  {
  }

  lemma FullBuildStep(w: World, files: Files, k: Known, cmds: seq<Command>, i: nat)
    requires i < |cmds|
    ensures FullBuild(w, files, cmds[..i + 1]) == After(w, FullBuild(w, files, cmds[..i]), cmds[i])
    ensures LearnedAll(w, files, k, cmds[..i + 1]) ==
      Learned(w, FullBuild(w, files, cmds[..i]), LearnedAll(w, files, k, cmds[..i]), cmds[i])
  {
    assert cmds[..i + 1][..i] == cmds[..i];
  }
}
