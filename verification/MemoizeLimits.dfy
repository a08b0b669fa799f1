/** Where skipping is not as good as running, and exactly when it still is. */
module MemoizeLimits {
  import opened Memoize

  // ----- outputs left unchecked -----

  /** With `inputsOnly` a command whose inputs are unchanged is skipped. That is as good as
      running it exactly when its outputs are unchanged too. */
  lemma InputsOnlyExact(w: World, files: Files, k: Known, c: Command)
    requires Injective(w) && Faithful(w, k) && UpToDate(w, files, k.deps, c, true) && StillMissed(files, k, c)
    ensures After(w, files, c) == files <==> UpToDate(w, files, k.deps, c, false)
  {
    if UpToDate(w, files, k.deps, c, false) {
      UpToDateHasNoEffect(w, files, k, c);
    } else {
      var before :| RanFrom(w, k, c, before);
      InputsDecide(w, files, k, c, before);
      var p :| p in k.deps[c] && !SameHash(w, files, p, k.deps[c][p], false);
      assert SameHash(w, files, p, k.deps[c][p], true);
      assert p in w.exec(c, before).writes;
    }
  }

  lemma InputsDecide(w: World, files: Files, k: Known, c: Command, before: Files)
    requires Injective(w) && UpToDate(w, files, k.deps, c, true) && RanFrom(w, k, c, before) && StillMissed(files, k, c)
    ensures w.exec(c, files) == w.exec(c, before)
  {
    var o := w.exec(c, before);
    forall p | p in o.report.deps ensures p in files && p in before && files[p] == before[p] {
      assert p in k.deps[c];
      assert SameHash(w, files, p, k.deps[c][p], true);
    }
    assert AgreeOn(before, files, o.report.deps);
  }

  /** A command that copies "i" to "o". */
  const COPY := World(
    content => content,
    (c, files: Files) =>
      if "i" in files then Outcome(Tracked(["i"], ["o"]), {}, map["o" := files["i"]])
        else Outcome(Untracked, {}, map[]))

  lemma CopyIsGood(files: Files)
    requires "i" in files
    ensures GoodRun(COPY, files, "cp")
  {
    forall other: Files | AgreeOn(files, other, ["i"]) ensures COPY.exec("cp", other) == COPY.exec("cp", files) {
      assert "i" in ["i"];
    }
    assert "i"[0] != "o"[0];
  }

  /** An output that was changed since: with `inputsOnly` the command is taken to be up to date, and
      running it would restore the output. */
  lemma OutputUnnoticed(start: Files, edited: Files)
    requires start == map["i" := "x"] && edited == map["i" := "x", "o" := "y"]
    ensures var known := Learned(COPY, start, Known(map[], map[]), "cp");
      && Injective(COPY) && Faithful(COPY, known) && StillMissed(edited, known, "cp")
      && UpToDate(COPY, edited, known.deps, "cp", true) && After(COPY, edited, "cp") != edited
  {
    CopyIsGood(start);
    RecordKeepsFaithful(COPY, start, Known(map[], map[]), "cp");
    CopyUpToDate(start, edited);
    CopyRestores(edited);
  }

  lemma CopyRestores(edited: Files)
    requires edited == map["i" := "x", "o" := "y"]
    ensures After(COPY, edited, "cp") != edited
  {
    assert After(COPY, edited, "cp")["o"] == "x" && "x"[0] != "y"[0];
  }

  lemma CopyUpToDate(start: Files, edited: Files)
    requires start == map["i" := "x"] && edited == map["i" := "x", "o" := "y"]
    ensures UpToDate(COPY, edited, Learned(COPY, start, Known(map[], map[]), "cp").deps, "cp", true)
  {
    CopyRecord(start);
    forall p | p in EntryOf(COPY, start, "cp") ensures SameHash(COPY, edited, p, EntryOf(COPY, start, "cp")[p], true) {
      assert p == "i" || p == "o";
    }
  }

  lemma CopyRecord(start: Files)
    requires start == map["i" := "x"]
    ensures EntryOf(COPY, start, "cp") == map["i" := Record(Input, "x"), "o" := Record(Output, "x")]
  {
    assert "i"[0] != "o"[0];
    assert After(COPY, start, "cp") == map["i" := "x", "o" := "x"];
  }

  // ----- runners that cannot trace -----

  /** A run that reports nothing leaves the hash cache as it is. The cache stays true exactly
      when the run rewrites no cached file with other contents. */
  lemma UntrackedExact(w: World, files: Files, cache: map<Path, Hash>, c: Command)
    requires Coherent(w, files, cache)
    ensures Coherent(w, After(w, files, c), cache) <==>
      forall p :: p in cache && p in w.exec(c, files).writes ==> w.hash(w.exec(c, files).writes[p]) == cache[p]
  {
    var writes := w.exec(c, files).writes;
    if Coherent(w, After(w, files, c), cache) {
      forall p | p in cache && p in writes ensures w.hash(writes[p]) == cache[p] {
        assert After(w, files, c)[p] == writes[p];
      }
    }
  }

  // ----- files that were looked for and not found -----

  /** A compiler that uses the header "x" when there is one. A file that does not exist is in
      no report. */
  const PROBING := World(
    content => content,
    (c, files: Files) =>
      if "x" in files then Outcome(Tracked(["x"], ["o"]), {}, map["o" := "with x"])
      else Outcome(Tracked([], ["o"]), {"x"}, map["o" := "without x"]))

  /** Once "x" appears the command is still taken to be up to date, and running it would
      change its output. All that the builder relies on holds, but for "x" being still missing. */
  lemma MissingFileUnnoticed()
    ensures var files: Files := map["o" := "without x"];
      var known := Learned(PROBING, map[], Known(map[], map[]), "cc");
      var edited := files["x" := ""];
      && After(PROBING, map[], "cc") == files
      && Injective(PROBING) && Faithful(PROBING, known) && UpToDate(PROBING, edited, known.deps, "cc", false)
      && !StillMissed(edited, known, "cc")
      && After(PROBING, edited, "cc") != edited
  {
    var files: Files := map["o" := "without x"];
    var empty := Known(map[], map[]);
    assert After(PROBING, map[], "cc") == files;
    ProbesWell();
    var edited := files["x" := ""];
    assert PROBING.exec("cc", edited) == Outcome(Tracked(["x"], ["o"]), {}, map["o" := "with x"]);
    assert After(PROBING, edited, "cc")["o"] == "with x";
    assert edited["o"] == "without x";
    assert "with x"[4] != "without x"[4];
    assert "x" in Learned(PROBING, map[], empty, "cc").missed["cc"];
  }

  lemma ProbesWell()
    ensures GoodRun(PROBING, map[], "cc") && Faithful(PROBING, Learned(PROBING, map[], Known(map[], map[]), "cc"))
  {
    ProbeIsGood();
    RecordKeepsFaithful(PROBING, map[], Known(map[], map[]), "cc");
  }

  lemma ProbeIsGood()
    ensures GoodRun(PROBING, map[], "cc")
  {
    forall other: Files | {"x"} !! other.Keys ensures PROBING.exec("cc", other) == PROBING.exec("cc", map[]) {
      assert "x" in {"x"};
    }
  }

  /** Another world that the builder cannot tell from the first: all other commands are the same,
      and so is the run that was recorded of `c`. */
  ghost predicate Alike(w: World, v: World, c: Command, before: Files) {
    && v.hash == w.hash && (forall d: Command, f: Files :: d != c ==> v.exec(d, f) == w.exec(d, f))
    && v.exec(c, before) == w.exec(c, before) && GoodRun(v, before, c)
  }

  /** Nothing weaker than the footprint will do. Wherever a file that a run read differs, or one
      that it missed has appeared, some world that is like the given one has the command change
      the files there. */
  lemma FootprintIsAll(w: World, before: Files, c: Command, files: Files) returns (v: World)
    requires GoodRun(w, before, c)
    requires var o := w.exec(c, before); !(AgreeOn(before, files, o.report.deps) && o.missed !! files.Keys)
    ensures Alike(w, v, c, before) && EntryOf(v, before, c) == EntryOf(w, before, c)
    ensures After(v, files, c) != files
  {
    var o := w.exec(c, before);
    var other := Outcome(o.report, {}, map["" := if "" in files then files[""] + "!" else "!"]);
    v := World(w.hash, (d: Command, f: Files) => if d == c && f == files then other else w.exec(d, f));
    assert before != files;
    assert After(v, before, c) == After(w, before, c);
    assert After(v, files, c)[""] == other.writes[""];
    assert "" in files ==> |other.writes[""]| != |files[""]|;
  }

  // ----- deciding before what is waited for has run -----

  predicate KeepsHash(w: World, files: Files, end: Files, p: Path) {
    p in files && p in end && w.hash(end[p]) == w.hash(files[p])
  }

  /** In parallel a command is checked when it is registered, before the commands it waits for
      have run. When these leave the files it read with the hashes they have, skipping it then is
      right exactly when they leave all its recorded files so. */
  lemma EarlySkip(w: World, files: Files, k: Known, waited: seq<Command>, c: Command)
    requires Injective(w) && Faithful(w, k) && UpToDate(w, files, k.deps, c, false)
    requires StillMissed(FullBuild(w, files, waited), k, c)
    requires forall p :: p in k.deps[c] && k.deps[c][p].kind == Input ==>
      KeepsHash(w, files, FullBuild(w, files, waited), p)
    ensures FullBuild(w, files, waited) == FullBuild(w, files, waited + [c]) <==>
      forall p :: p in k.deps[c] ==> KeepsHash(w, files, FullBuild(w, files, waited), p)
  {
    var end := FullBuild(w, files, waited);
    FilesStay(w, files, waited);
    forall p | p in k.deps[c]
      ensures SameHash(w, end, p, k.deps[c][p], true) &&
        (SameHash(w, end, p, k.deps[c][p], false) <==> KeepsHash(w, files, end, p))
    {
      assert SameHash(w, files, p, k.deps[c][p], false);
    }
    InputsOnlyExact(w, end, k, c);
    assert (waited + [c])[..|waited|] == waited;
  }

  /** Skipping `c` is right in every world that the builder cannot tell from this one. */
  ghost predicate RightInAll(w: World, c: Command, before: Files, end: Files) {
    forall v :: Alike(w, v, c, before) ==> After(v, end, c) == end
  }

  /** Without any condition on what is waited for: skipping early is right, as far as the builder
      can know, exactly when the recorded files all end with the hashes they have, and the files
      that the recorded run missed are still missing then. */
  lemma EarlySkipExact(w: World, files: Files, k: Known, waited: seq<Command>, c: Command, before: Files)
    requires Injective(w) && RanFrom(w, k, c, before) && UpToDate(w, files, k.deps, c, false)
    ensures var end := FullBuild(w, files, waited);
      RightInAll(w, c, before, end) <==>
        StillMissed(end, k, c) && forall p :: p in k.deps[c] ==> KeepsHash(w, files, end, p)
  {
    var end := FullBuild(w, files, waited);
    if StillMissed(end, k, c) && forall p :: p in k.deps[c] ==> KeepsHash(w, files, end, p) {
      forall v | Alike(w, v, c, before) ensures After(v, end, c) == end {
        assert RanFrom(v, k, c, before);
        StillUpToDate(w, files, k, c, end);
        RecordedHasNoEffect(v, end, k, c, before);
      }
    } else {
      SomeWorldDiffers(w, files, k, c, before, end);
    }
  }

  lemma StillUpToDate(w: World, files: Files, k: Known, c: Command, end: Files)
    requires UpToDate(w, files, k.deps, c, false) && forall p :: p in k.deps[c] ==> KeepsHash(w, files, end, p)
    ensures UpToDate(w, end, k.deps, c, false)
  {
    forall p | p in k.deps[c] ensures SameHash(w, end, p, k.deps[c][p], false) {
      assert SameHash(w, files, p, k.deps[c][p], false) && KeepsHash(w, files, end, p);
    }
  }

  lemma SomeWorldDiffers(w: World, files: Files, k: Known, c: Command, before: Files, end: Files)
    requires Injective(w) && RanFrom(w, k, c, before) && UpToDate(w, files, k.deps, c, false)
    requires !(StillMissed(end, k, c) && forall p :: p in k.deps[c] ==> KeepsHash(w, files, end, p))
    ensures !RightInAll(w, c, before, end)
  {
    var o := w.exec(c, before);
    if AgreeOn(before, end, o.report.deps) && o.missed !! end.Keys {
      var p :| p in k.deps[c] && !KeepsHash(w, files, end, p);
      assert SameHash(w, files, p, k.deps[c][p], false);
      OutputMoved(w, files, k, c, before, end, p);
      assert Alike(w, w, c, before);
    } else {
      var v := FootprintIsAll(w, before, c, end);
    }
  }

  /** A recorded file that has changed although what was read has not is an output, which running
      the command would write again. */
  lemma OutputMoved(w: World, files: Files, k: Known, c: Command, before: Files, end: Files, p: Path)
    requires Injective(w) && RanFrom(w, k, c, before) && p in k.deps[c] && SameHash(w, files, p, k.deps[c][p], false)
    requires AgreeOn(before, end, w.exec(c, before).report.deps) && w.exec(c, before).missed !! end.Keys
    requires !KeepsHash(w, files, end, p)
    ensures After(w, end, c) != end
  {
    var o := w.exec(c, before);
    assert w.exec(c, end) == o;
    assert p in o.report.deps + o.report.outputs;
    if p in o.report.outputs {
      assert p in o.writes && After(w, end, c)[p] == o.writes[p] == After(w, before, c)[p];
    }
  }

  /** No command removes a file. */
  lemma {:induction false} FilesStay(w: World, files: Files, cmds: seq<Command>)
    ensures files.Keys <= FullBuild(w, files, cmds).Keys
  {
    if cmds != [] {
      FilesStay(w, files, cmds[..|cmds| - 1]);
    }
  }

  /** "cc" copies "c" to "o", "ld" copies "o" to "b". */
  const COPYING := World(
    content => content,
    (c, files: Files) =>
      if c == "cc" && "c" in files then Outcome(Tracked(["c"], ["o"]), {}, map["o" := files["c"]])
      else if c == "ld" && "o" in files then Outcome(Tracked(["o"], ["b"]), {}, map["b" := files["o"]])
      else Outcome(Tracked([], []), {}, map[]))

  lemma BuildTwo(w: World, files: Files, c: Command, d: Command)
    ensures FullBuild(w, files, [c]) == After(w, files, c)
    ensures FullBuild(w, files, [c, d]) == After(w, After(w, files, c), d)
  {
    assert [c, d][..1] == [c] && [c][..0] == [];
    assert FullBuild(w, files, []) == files;
  }

  lemma NamesDiffer()
    ensures "cc" != "ld" && "new" != "old"
  {
    assert "cc"[0] != "ld"[0];
    assert "new"[0] != "old"[0];
  }

  /** When "c" was edited, "ld" is up to date until "cc" has run; registered after "cc" it is
      skipped all the same, and "b" stays as it was. */
  lemma EarlySkipWrong()
    ensures var files: Files := map["c" := "new", "o" := "old", "b" := "old"];
      var known := Learned(COPYING, map["o" := "old"], Known(map[], map[]), "ld");
      && UpToDate(COPYING, files, known.deps, "ld", false) && StillMissed(files, known, "ld")
      && FullBuild(COPYING, files, ["cc"]) != FullBuild(COPYING, files, ["cc", "ld"])
  {
    var files: Files := map["c" := "new", "o" := "old", "b" := "old"];
    var then' := After(COPYING, files, "cc");
    BuildTwo(COPYING, files, "cc", "ld");
    NamesDiffer();
    assert After(COPYING, then', "ld")["b"] == "new" && then'["b"] == "old";
  }
}
