/** Following files as they grow: what is shipped for each, over whole runs. */
module Tailing {

  const NEWLINE := '\n'

  // ----- lines -----

  /** The end of the line that starts at a position: after its newline, or the end of the file. */
  function LineEnd(content: string, from: nat): (end: nat)
    requires from < |content|
    ensures from < end <= |content|
    decreases |content| - from
  {
    if content[from] == NEWLINE || from + 1 == |content| then from + 1 else LineEnd(content, from + 1)
  }

  /** The lines from a position to the end of the file. */
  function Pieces(content: string, from: nat): (pieces: seq<string>)
    requires from <= |content|
    decreases |content| - from
  {
    if from == |content| then []
    else [content[from..LineEnd(content, from)]] + Pieces(content, LineEnd(content, from))
  }

  function Join(pieces: seq<string>): string {
    if pieces == [] then [] else pieces[0] + Join(pieces[1..])
  }

  /** A nonempty stretch with no newline before its last byte. */
  predicate OneLine(piece: string) {
    piece != [] && NEWLINE !in piece[..|piece| - 1]
  }

  predicate Ended(piece: string) {
    piece != [] && piece[|piece| - 1] == NEWLINE
  }

  lemma {:induction false} LineShape(content: string, from: nat)
    requires from < |content|
    ensures OneLine(content[from..LineEnd(content, from)])
    ensures LineEnd(content, from) < |content| ==> Ended(content[from..LineEnd(content, from)])
    decreases |content| - from
  {
    var end := LineEnd(content, from);
    if content[from] != NEWLINE && from + 1 < |content| {
      LineShape(content, from + 1);
      var rest := content[from + 1..end];
      assert content[from..end][..end - from - 1] == [content[from]] + rest[..|rest| - 1];
    }
  }

  /** The pieces make up the bytes from the position to the end, none lost and none twice, cut
      only after newlines and at the end of the file. */
  lemma {:induction false} PiecesExact(content: string, from: nat)
    requires from <= |content|
    ensures Join(Pieces(content, from)) == content[from..]
    ensures forall i :: 0 <= i < |Pieces(content, from)| ==> OneLine(Pieces(content, from)[i])
    ensures forall i :: 0 <= i < |Pieces(content, from)| - 1 ==> Ended(Pieces(content, from)[i])
    decreases |content| - from
  {
    if from < |content| {
      var end := LineEnd(content, from);
      PiecesExact(content, end);
      LineShape(content, from);
      assert content[from..] == content[from..end] + content[end..];
    }
  }

  /** Two lines, of which the second is not ended. */
  lemma TwoLines()
    ensures Pieces("a\nb", 0) == ["a\n", "b"]
  {
    assert LineEnd("a\nb", 0) == 2 && LineEnd("a\nb", 2) == 3;
    assert "a\nb"[0..2] == "a\n" && "a\nb"[2..3] == "b";
    assert Pieces("a\nb", 2) == ["b"] + Pieces("a\nb", 3);
  }

  // ----- runs over many files -----

  /** What the output is given: a path, and bytes of the file under it. */
  datatype Piece = Piece(path: string, bytes: string)

  function Labelled(path: string, pieces: seq<string>): (labelled: seq<Piece>)
    ensures |labelled| == |pieces|
    ensures forall i :: 0 <= i < |pieces| ==> labelled[i] == Piece(path, pieces[i])
  {
    seq(|pieces|, i requires 0 <= i < |pieces| => Piece(path, pieces[i]))
  }

  datatype World = World(files: map<string, string>, offsets: map<string, nat>, log: seq<Piece>)

  /** The length a file had when it was last read, zero if it never was. */
  function Offset(w: World, path: string): nat {
    if path in w.offsets then w.offsets[path] else 0
  }

  /** Where reading resumes: at the offset, or at the start of a file that has become shorter. */
  function Resume(offset: nat, length: nat): (start: nat)
    ensures start <= length
  {
    if length < offset then 0 else offset
  }

  datatype Happening =
    | Grow(path: string, bytes: string)     // bytes are appended to a file, new or not
    | Rewrite(path: string, bytes: string)  // a file gets a new content
    | Modified(path: string)                // a modification is noticed
    | SetUp(paths: set<string>)             // a directory is set up: the lengths of its files are recorded

  /** The lengths of those files that exist. */
  function Lengths(files: map<string, string>, paths: set<string>): map<string, nat> {
    map path | path in paths && path in files :: |files[path]|
  }

  function Step(w: World, h: Happening): World {
    match h
    case Grow(p, bytes) => w.(files := w.files[p := (if p in w.files then w.files[p] else []) + bytes])
    case Rewrite(p, bytes) => w.(files := w.files[p := bytes])
    case Modified(p) =>
      if p !in w.files then w
      else
        var content := w.files[p];
        w.(offsets := w.offsets[p := |content|],
           log := w.log + Labelled(p, Pieces(content, Resume(Offset(w, p), |content|))))
    case SetUp(paths) => w.(offsets := w.offsets + Lengths(w.files, paths))
  }

  function After(w: World, run: seq<Happening>): World {
    if run == [] then w else Step(After(w, run[..|run| - 1]), run[|run| - 1])
  }

  /** All the bytes handed over for a path. */
  function Shipped(log: seq<Piece>, path: string): string {
    if log == [] then []
    else Shipped(log[..|log| - 1], path) + if log[|log| - 1].path == path then log[|log| - 1].bytes else []
  }

  function Content(w: World, path: string): string {
    if path in w.files then w.files[path] else []
  }

  predicate NeverRewritten(run: seq<Happening>, path: string) {
    forall i :: 0 <= i < |run| ==> !(run[i].Rewrite? && run[i].path == path)
  }

  /** The file is read to its end. */
  predicate Read(w: World, h: Happening, path: string) {
    h == Modified(path) && path in w.files
  }

  /** The file is passed over: what it holds beyond its offset will not be read. */
  predicate Skipped(w: World, h: Happening, path: string) {
    h.SetUp? && path in h.paths && path in w.files
  }

  /** The length of a file when it was last read or passed over in the run. */
  function LastLength(w: World, run: seq<Happening>, path: string): nat {
    if run == [] then Offset(w, path)
    else
      var before, last := run[..|run| - 1], run[|run| - 1];
      var v := After(w, before);
      if Read(v, last, path) || Skipped(v, last, path) then |Content(v, path)| else LastLength(w, before, path)
  }

  /** The byte at position `k` had not been read when the file was passed over. */
  predicate LostAt(w: World, run: seq<Happening>, i: nat, path: string, k: nat)
    requires i < |run|
  {
    var v := After(w, run[..i]);
    Skipped(v, run[i], path) && Offset(v, path) <= k < |Content(v, path)|
  }

  function Positions(from: nat, to: nat): (positions: set<nat>)
    ensures forall k :: k in positions <==> from <= k < to
  {
    if from >= to then {} else Positions(from, to - 1) + {to - 1}
  }

  /** The positions of the bytes that are passed over without having been read. */
  function Lost(w: World, run: seq<Happening>, path: string): set<nat> {
    if run == [] then {}
    else
      var before := run[..|run| - 1];
      var v := After(w, before);
      if Skipped(v, run[|run| - 1], path) then Lost(w, before, path) + Positions(Offset(v, path), |Content(v, path)|)
      else Lost(w, before, path)
  }

  /** The bytes from one position to another, without those at some positions. */
  function Kept(content: string, lost: set<nat>, from: nat, to: nat): string
    requires from <= to <= |content|
  {
    if from == to then []
    else Kept(content, lost, from, to - 1) + if to - 1 in lost then [] else [content[to - 1]]
  }

  lemma {:induction false} ShippedAppend(log: seq<Piece>, more: seq<Piece>, path: string)
    ensures Shipped(log + more, path) == Shipped(log, path) + Shipped(more, path)
  {
    if more == [] {
      assert log + more == log;
    } else {
      var n := |more| - 1;
      ShippedAppend(log, more[..n], path);
      assert (log + more)[..|log + more| - 1] == log + more[..n];
    }
  }

  lemma {:induction false} ShippedLabelled(p: string, pieces: seq<string>, path: string)
    ensures Shipped(Labelled(p, pieces), path) == if p == path then Join(pieces) else []
  {
    if pieces != [] {
      ShippedLabelled(p, pieces[1..], path);
      assert Labelled(p, pieces) == [Piece(p, pieces[0])] + Labelled(p, pieces[1..]);
      ShippedAppend([Piece(p, pieces[0])], Labelled(p, pieces[1..]), path);
      assert Shipped([], path) == [];
    }
  }

  /** What noticing a modification ships: the bytes from where reading resumes to the end of the
      file, for that file and no other. */
  lemma ModifiedShips(w: World, p: string, path: string)
    requires p in w.files
    ensures Shipped(Step(w, Modified(p)).log, path) ==
      Shipped(w.log, path) + if p == path then w.files[p][Resume(Offset(w, p), |w.files[p]|)..] else []
  {
    var start := Resume(Offset(w, p), |w.files[p]|);
    var pieces := Pieces(w.files[p], start);
    ShippedAppend(w.log, Labelled(p, pieces), path);
    ShippedLabelled(p, pieces, path);
    PiecesExact(w.files[p], start);
  }

  lemma OneStep(w: World, h: Happening, path: string)
    requires !(h.Rewrite? && h.path == path) && Offset(w, path) <= |Content(w, path)|
    ensures Content(w, path) <= Content(Step(w, h), path)
    ensures Offset(Step(w, h), path) == if Read(w, h, path) ||
      Skipped(w, h, path) then |Content(w, path)| else Offset(w, path)
    ensures Shipped(Step(w, h).log, path) == Shipped(w.log, path) + if Read(w, h, path) then
      Content(w, path)[Offset(w, path)..] else []
  {
    if h.Modified? && h.path in w.files {
      ModifiedShips(w, h.path, path);
    }
  }

  // ----- bytes kept and lost -----

  lemma {:induction false} KeptSame(c: string, d: string, lost: set<nat>, more: set<nat>, from: nat, to: nat)
    requires from <= to <= |c| && c <= d
    requires forall k :: from <= k < to ==> (k in lost <==> k in more)
    ensures Kept(c, lost, from, to) == Kept(d, more, from, to)
  {
    if from < to {
      KeptSame(c, d, lost, more, from, to - 1);
    }
  }

  lemma {:induction false} KeptOn(c: string, lost: set<nat>, from: nat, mid: nat, to: nat)
    requires from <= mid <= to <= |c|
    ensures (forall k :: mid <= k < to ==> k !in lost) ==>
      Kept(c, lost, from, to) == Kept(c, lost, from, mid) + c[mid..to]
    ensures (forall k :: mid <= k < to ==> k in lost) ==> Kept(c, lost, from, to) == Kept(c, lost, from, mid)
  {
    if mid < to {
      KeptOn(c, lost, from, mid, to - 1);
      assert c[mid..to] == c[mid..to - 1] + [c[to - 1]];
    }
  }

  lemma {:induction false} KeptLength(c: string, lost: set<nat>, from: nat, to: nat)
    requires from <= to <= |c|
    ensures |Kept(c, lost, from, to)| <= to - from
    ensures (exists k :: from <= k < to && k in lost) ==> |Kept(c, lost, from, to)| < to - from
  {
    if from < to {
      KeptLength(c, lost, from, to - 1);
    }
  }

  /** No byte is missing exactly when none is lost. */
  lemma KeptAll(c: string, lost: set<nat>, from: nat, to: nat)
    requires from <= to <= |c|
    ensures Kept(c, lost, from, to) == c[from..to] <==> forall k :: from <= k < to ==> k !in lost
  {
    KeptOn(c, lost, from, from, to);
    KeptLength(c, lost, from, to);
  }

  lemma {:induction false} LostExact(w: World, run: seq<Happening>, path: string, k: nat)
    ensures k in Lost(w, run, path) <==> exists i :: 0 <= i < |run| && LostAt(w, run, i, path, k)
  {
    if run != [] {
      var n := |run| - 1;
      LostExact(w, run[..n], path, k);
      forall i | 0 <= i < n ensures LostAt(w, run, i, path, k) <==> LostAt(w, run[..n], i, path, k) {
        assert run[..n][..i] == run[..i];
      }
      assert k in Lost(w, run, path) <==> k in Lost(w, run[..n], path) || LostAt(w, run, n, path, k);
    }
  }

  /** What is shipped and what is lost, from and up to where. */
  predicate Accounted(w: World, v: World, path: string, lost: set<nat>, from: nat, to: nat) {
    && from <= to <= |Content(v, path)| && Offset(v, path) == to
    && Content(w, path) <= Content(v, path)
    && (forall k :: k in lost ==> from <= k < to)
    && Shipped(v.log, path) == Shipped(w.log, path) + Kept(Content(v, path), lost, from, to)
  }

  /** One look more: what is read then is kept, and what is passed over is lost. */
  lemma KeptStep(c: string, d: string, lost: set<nat>, more: set<nat>, from: nat, mid: nat, read: bool, skipped: bool)
    requires from <= mid <= |c| && c <= d && !(read && skipped) && forall k :: k in lost ==> from <= k < mid
    requires more == if skipped then lost + Positions(mid, |c|) else lost
    ensures Kept(d, more, from, if read || skipped then |c| else mid) == Kept(c, lost, from, mid) + if read then
      c[mid..] else []
  {
    KeptSame(c, d, lost, more, from, mid);
    if read || skipped {
      KeptOn(d, more, from, mid, |c|);
      assert d[mid..|c|] == c[mid..];
    }
  }

  lemma AccountedStep(w: World, v: World, h: Happening, path: string, lost: set<nat>, more: set<nat>, from: nat,
                      mid: nat, to: nat)
    requires !(h.Rewrite? && h.path == path) && Accounted(w, v, path, lost, from, mid)
    requires more == if Skipped(v, h, path) then lost + Positions(mid, |Content(v, path)|) else lost
    requires to == if Read(v, h, path) || Skipped(v, h, path) then |Content(v, path)| else mid
    ensures Accounted(w, Step(v, h), path, more, from, to)
  {
    OneStep(v, h, path);
    var c, read := Content(v, path), Read(v, h, path);
    KeptStep(c, Content(Step(v, h), path), lost, more, from, mid, read, Skipped(v, h, path));
    Appended(Shipped(w.log, path), Kept(c, lost, from, mid), if read then c[mid..] else []);
  }

  lemma Appended(a: string, b: string, c: string)
    ensures (a + b) + c == a + (b + c) && a + b + [] == a + b
  {
  }

  lemma AfterOneMore(w: World, run: seq<Happening>, h: Happening)
    ensures After(w, run + [h]) == Step(After(w, run), h)
  {
    assert (run + [h])[..|run|] == run;
  }

  lemma {:induction false} AfterBoth(w: World, run: seq<Happening>, rest: seq<Happening>)
    ensures After(w, run + rest) == After(After(w, run), rest)
  {
    if rest == [] {
      assert run + rest == run;
    } else {
      var most, last := rest[..|rest| - 1], rest[|rest| - 1];
      assert run + rest == (run + most) + [last] && rest == most + [last];
      AfterBoth(w, run, most);
      AfterOneMore(w, run + most, last);
      AfterOneMore(After(w, run), most, last);
    }
  }

  lemma OneMore(w: World, run: seq<Happening>, h: Happening, path: string)
    ensures After(w, run + [h]) == Step(After(w, run), h)
    ensures var v := After(w, run);
      && Lost(w, run + [h], path) ==
           (if Skipped(v, h, path) then Lost(w, run, path) + Positions(Offset(v, path), |Content(v, path)|)
             else Lost(w, run, path))
      && LastLength(w, run + [h], path) == if Read(v, h, path) ||
           Skipped(v, h, path) then |Content(v, path)| else LastLength(w, run, path)
  {
    assert (run + [h])[..|run|] == run;
  }

  /** For any number of files and any run of appends, noticed modifications and directories set
      up, the bytes shipped for a file are its content from the starting offset to its length
      when it was last read or passed over: each byte once, in order, without those that were
      passed over before they had been read. Other files may be rewritten. */
  lemma {:induction false} ShippedOrLost(w: World, run: seq<Happening>, path: string)
    requires NeverRewritten(run, path) && Offset(w, path) <= |Content(w, path)|
    ensures Accounted(w, After(w, run), path, Lost(w, run, path), Offset(w, path), LastLength(w, run, path))
  {
    if run == [] {
      assert Shipped(w.log, path) + [] == Shipped(w.log, path);
    } else {
      var before, last := run[..|run| - 1], run[|run| - 1];
      assert run == before + [last];
      ShippedOrLost(w, before, path);
      OneMore(w, before, last, path);
      AccountedStep(w, After(w, before), last, path, Lost(w, before, path), Lost(w, run, path), Offset(w, path),
                    LastLength(w, before, path), LastLength(w, run, path));
    }
  }

  /** The file had been read to its end whenever it was passed over. */
  predicate ReadBefore(w: World, run: seq<Happening>, path: string) {
    forall i :: 0 <= i < |run| ==> AtEnd(w, run, i, path)
  }

  predicate AtEnd(w: World, run: seq<Happening>, i: nat, path: string)
    requires i < |run|
  {
    var v := After(w, run[..i]);
    Skipped(v, run[i], path) ==> Offset(v, path) >= |Content(v, path)|
  }

  lemma NothingLost(w: World, run: seq<Happening>, path: string)
    ensures Lost(w, run, path) == {} <==> ReadBefore(w, run, path)
  {
    forall k: nat | k in Lost(w, run, path) ensures !ReadBefore(w, run, path) {
      LostExact(w, run, path, k);
      var i :| 0 <= i < |run| && LostAt(w, run, i, path, k);
      assert !AtEnd(w, run, i, path);
    }
    if !ReadBefore(w, run, path) {
      var i :| 0 <= i < |run| && !AtEnd(w, run, i, path);
      var k := Offset(After(w, run[..i]), path);
      LostExact(w, run, path, k);
      assert LostAt(w, run, i, path, k);
    }
  }

  /** Every byte up to the last look at the file is shipped, once and in order, exactly when
      whatever a directory was set up over had been read. */
  lemma {:induction false} ShippedExact(w: World, run: seq<Happening>, path: string)
    requires NeverRewritten(run, path) && Offset(w, path) <= |Content(w, path)|
    ensures Offset(w, path) <= LastLength(w, run, path) <= |Content(After(w, run), path)|
    ensures Shipped(After(w, run).log, path) ==
        Shipped(w.log, path) + Content(After(w, run), path)[Offset(w, path)..LastLength(w, run, path)]
      <==> ReadBefore(w, run, path)
  {
    ShippedOrLost(w, run, path);
    NothingLost(w, run, path);
    var shipped, c, from, to := Shipped(w.log, path), Content(After(w, run), path), Offset(w, path),
      LastLength(w, run, path);
    KeptAll(c, Lost(w, run, path), from, to);
    var kept := Kept(c, Lost(w, run, path), from, to);
    assert (shipped + kept)[|shipped|..] == kept && (shipped + c[from..to])[|shipped|..] == c[from..to];
  }

  /** No directory is set up over the file. */
  predicate NeverSkipped(run: seq<Happening>, path: string) {
    forall i :: 0 <= i < |run| ==> !(run[i].SetUp? && path in run[i].paths)
  }

  /** Without directories set up over the file, all of it is. */
  lemma {:induction false} ShippedOnce(w: World, run: seq<Happening>, path: string)
    requires NeverRewritten(run, path) && NeverSkipped(run, path) && Offset(w, path) <= |Content(w, path)|
    ensures Offset(w, path) <= LastLength(w, run, path) <= |Content(After(w, run), path)|
    ensures Shipped(After(w, run).log, path) ==
      Shipped(w.log, path) + Content(After(w, run), path)[Offset(w, path)..LastLength(w, run, path)]
  {
    assert ReadBefore(w, run, path);
    ShippedExact(w, run, path);
  }

  lemma {:induction false} InTwo(w: World, run: seq<Happening>, rest: seq<Happening>, path: string)
    requires Offset(After(w, run), path) == LastLength(w, run, path)
    ensures LastLength(w, run + rest, path) == LastLength(After(w, run), rest, path)
    ensures Lost(w, run + rest, path) == Lost(w, run, path) + Lost(After(w, run), rest, path)
  {
    if rest == [] {
      assert run + rest == run;
    } else {
      var most, last := rest[..|rest| - 1], rest[|rest| - 1];
      assert rest == most + [last] && run + rest == (run + most) + [last];
      InTwo(w, run, most, path);
      AfterBoth(w, run, most);
      OneMore(w, run + most, last, path);
      OneMore(After(w, run), most, last, path);
    }
  }

  lemma {:induction false} NothingSkipped(w: World, run: seq<Happening>, path: string)
    requires NeverSkipped(run, path)
    ensures Lost(w, run, path) == {}
  {
    if run != [] {
      NothingSkipped(w, run[..|run| - 1], path);
    }
  }

  predicate NeverNoticed(run: seq<Happening>, path: string) {
    forall i :: 0 <= i < |run| ==> run[i] != Modified(path)
  }

  lemma {:induction false} NotLookedAt(w: World, run: seq<Happening>, path: string)
    requires NeverNoticed(run, path) && NeverSkipped(run, path)
    ensures LastLength(w, run, path) == Offset(w, path)
  {
    if run != [] {
      NotLookedAt(w, run[..|run| - 1], path);
    }
  }

  /** A file under a directory that is new: what it held when the directory was set up is never
      shipped, and all that is appended afterwards is, once and in order. */
  lemma NewDirectory(w: World, before: seq<Happening>, paths: set<string>, later: seq<Happening>, path: string)
    requires path in paths && path in After(w, before).files && Offset(w, path) <= |Content(w, path)|
    requires NeverRewritten(before, path) && NeverNoticed(before, path) && NeverSkipped(before, path)
    requires NeverRewritten(later, path) && NeverSkipped(later, path)
    ensures var run, start := before + [SetUp(paths)] + later, |Content(After(w, before), path)|;
      && Lost(w, run, path) == Positions(Offset(w, path), start)
      && start <= LastLength(w, run, path) <= |Content(After(w, run), path)|
      && Shipped(After(w, run).log, path) ==
           Shipped(w.log, path) + Content(After(w, run), path)[start..LastLength(w, run, path)]
  {
    var setUp := before + [SetUp(paths)];
    ShippedOrLost(w, before, path);
    NotLookedAt(w, before, path);
    NothingSkipped(w, before, path);
    OneMore(w, before, SetUp(paths), path);
    InTwo(w, setUp, later, path);
    AfterBoth(w, setUp, later);
    NothingSkipped(After(w, setUp), later, path);
    assert After(w, setUp).log == After(w, before).log;
    ShippedOnce(After(w, setUp), later, path);
  }

  /** A file that is rewritten and then noticed is shipped whole exactly when it has become
      shorter than its offset, or none of it counted as read: bytes written over others that
      were shipped already go unseen otherwise. */
  lemma RewriteShipsWhole(w: World, path: string, bytes: string)
    ensures var log := After(w, [Rewrite(path, bytes), Modified(path)]).log;
      Shipped(log, path) == Shipped(w.log, path) + bytes <==> |bytes| < Offset(w, path) || Offset(w, path) == 0
  {
    var run := [Rewrite(path, bytes), Modified(path)];
    assert run[..1] == [Rewrite(path, bytes)];
    assert After(w, run[..1]) == Step(After(w, run[..1][..0]), Rewrite(path, bytes));
    var v := Step(w, Rewrite(path, bytes));
    assert After(w, run) == Step(v, Modified(path));
    ModifiedShips(v, path, path);
    var rest := bytes[Resume(Offset(w, path), |bytes|)..];
    assert |Shipped(w.log, path) + rest| == |Shipped(w.log, path)| + |rest|;
  }
}
