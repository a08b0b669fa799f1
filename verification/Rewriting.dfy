/** Following files that are emptied and filled again and again. */
module Rewriting {
  import opened Tailing

  predicate Rewritten(h: Happening, path: string) {
    h.Rewrite? && h.path == path
  }

  /** The file has been rewritten and not been read since. */
  predicate Unread(w: World, run: seq<Happening>, path: string) {
    if run == [] then false
    else
      var before, last := run[..|run| - 1], run[|run| - 1];
      Rewritten(last, path) || (!Read(After(w, before), last, path) && Unread(w, before, path))
  }

  /** Where the content that is read begins: at the starting offset until the file is rewritten. */
  function Start(w: World, run: seq<Happening>, path: string): nat {
    if NeverRewritten(run, path) then Offset(w, path) else 0
  }

  /** What the file held, from its start, when it was last read since it was last rewritten. */
  function Current(w: World, run: seq<Happening>, path: string): string {
    if run == [] then []
    else
      var before, last := run[..|run| - 1], run[|run| - 1];
      var c, start := Content(After(w, before), path), Start(w, before, path);
      if Rewritten(last, path) then []
      else if Read(After(w, before), last, path) && start <= |c| then c[start..]
      else Current(w, before, path)
  }

  /** What the file held in each of its earlier lives, when it was last read in it. */
  function Earlier(w: World, run: seq<Happening>, path: string): string {
    if run == [] then []
    else
      var before, last := run[..|run| - 1], run[|run| - 1];
      Earlier(w, before, path) + if Rewritten(last, path) then Current(w, before, path) else []
  }

  /** The contents of all lives of the file, one after the other. */
  function Lives(w: World, run: seq<Happening>, path: string): string {
    Earlier(w, run, path) + Current(w, run, path)
  }

  /** A rewritten file is first read while it is shorter than its offset, or its offset is zero. */
  predicate NoticedAt(w: World, run: seq<Happening>, i: nat, path: string)
    requires i < |run|
  {
    var v := After(w, run[..i]);
    Unread(w, run[..i], path) && Read(v, run[i], path) ==> |Content(v, path)| < Offset(v, path) || Offset(v, path) == 0
  }

  predicate Noticed(w: World, run: seq<Happening>, path: string) {
    forall i :: 0 <= i < |run| ==> NoticedAt(w, run, i, path)
  }

  /** What was shipped since is all there was to ship, or less; up to the offset the content is known. */
  predicate Settled(base: string, shipped: string, content: string, offset: nat, good: bool, unread: bool, start: nat,
                    lives: string, current: string) {
    && (if good then shipped == base + lives else |shipped| < |base| + |lives|)
    && (if unread then current == [] && start == 0
        else start <= offset <= |content| && current == content[start..offset])
  }

  lemma Grows(base: string, shipped: string, c: string, d: string, offset: nat, good: bool, unread: bool, start: nat,
              lives: string, current: string)
    requires Settled(base, shipped, c, offset, good, unread, start, lives, current) && c <= d
    ensures Settled(base, shipped, d, offset, good, unread, start, lives, current)
  {
    if !unread {
      assert c[start..offset] == d[start..offset];
    }
  }

  lemma Appended(base: string, shipped: string, earlier: string, current: string, rest: string, good: bool)
    requires if good then shipped == base + (earlier + current) else |shipped| < |base| + |earlier + current|
    ensures if good then shipped + rest == base + (earlier + (current + rest))
            else |shipped + rest| < |base| + |earlier + (current + rest)|
  {
    if good {
      assert (base + (earlier + current)) + rest == base + (earlier + (current + rest));
    }
  }

  lemma ReadOn(base: string, shipped: string, c: string, offset: nat, good: bool, start: nat, earlier: string,
               current: string)
    requires Settled(base, shipped, c, offset, good, false, start, earlier + current, current)
    ensures Resume(offset, |c|) == offset
    ensures Settled(base, shipped + c[offset..], c, |c|, good, false, start, earlier + c[start..], c[start..])
  {
    Appended(base, shipped, earlier, current, c[offset..], good);
    assert c[start..] == current + c[offset..];
  }

  lemma ReadFirst(base: string, shipped: string, c: string, offset: nat, good: bool, earlier: string)
    requires Settled(base, shipped, c, offset, good, true, 0, earlier, [])
    ensures var short := |c| < offset || offset == 0;
      Settled(base, shipped + c[Resume(offset, |c|)..], c, |c|, good && short, false, 0, earlier + c, c)
  {
    Appended(base, shipped, earlier, [], c, good);
    assert earlier + [] == earlier && [] + c == c == c[0..];
  }

  lemma OneMore(w: World, before: seq<Happening>, h: Happening, path: string)
    ensures var run, v := before + [h], After(w, before);
      && After(w, run) == Step(v, h) && Earlier(w, run, path) ==
           Earlier(w, before, path) + (if Rewritten(h, path) then Current(w, before, path) else [])
      && Current(w, run, path) ==
           (if Rewritten(h, path) then []
            else if Read(v, h, path) && Start(w, before, path) <= |Content(v, path)| then
              Content(v, path)[Start(w, before, path)..]
            else Current(w, before, path))
      && Start(w, run, path) == (if Rewritten(h, path) then 0 else Start(w, before, path))
      && (Unread(w, run, path) <==> Rewritten(h, path) || (!Read(v, h, path) && Unread(w, before, path)))
      && (Noticed(w, run, path) <==> Noticed(w, before, path) && NoticedAt(w, run, |before|, path))
  {
    var run, n := before + [h], |before|;
    assert run[..n] == before;
    forall i | 0 <= i < n ensures run[i] == before[i] &&
      (NoticedAt(w, run, i, path) <==> NoticedAt(w, before, i, path)) {
      assert run[..i] == before[..i];
    }
    assert run[n] == h;
    assert (forall i :: 0 <= i < n ==> !Rewritten(run[i], path)) <==> NeverRewritten(before, path);
  }

  /** What the definitions have come to after a run. */
  predicate SettledAfter(w: World, run: seq<Happening>, path: string) {
    var v := After(w, run);
    Settled(Shipped(w.log, path), Shipped(v.log, path), Content(v, path), Offset(v, path), Noticed(w, run, path),
            Unread(w, run, path), Start(w, run, path), Lives(w, run, path), Current(w, run, path))
  }

  lemma SettledByReading(w: World, before: seq<Happening>, path: string)
    requires SettledAfter(w, before, path) && path in After(w, before).files
    ensures SettledAfter(w, before + [Modified(path)], path)
  {
    OneMore(w, before, Modified(path), path);
    var v, earlier := After(w, before), Earlier(w, before, path);
    ModifiedShips(v, path, path);
    assert earlier + [] == earlier;
    if Unread(w, before, path) {
      ReadFirst(Shipped(w.log, path), Shipped(v.log, path), Content(v, path), Offset(v, path), Noticed(w, before, path),
                earlier);
    } else {
      ReadOn(Shipped(w.log, path), Shipped(v.log, path), Content(v, path), Offset(v, path), Noticed(w, before, path),
             Start(w, before, path), earlier, Current(w, before, path));
    }
  }

  lemma SettledByRewriting(w: World, before: seq<Happening>, h: Happening, path: string)
    requires SettledAfter(w, before, path) && Rewritten(h, path)
    ensures SettledAfter(w, before + [h], path)
  {
    OneMore(w, before, h, path);
    assert Earlier(w, before, path) + Current(w, before, path) + [] == Lives(w, before, path);
  }

  lemma SettledOtherwise(w: World, before: seq<Happening>, h: Happening, path: string)
    requires SettledAfter(w, before, path) && !(h.SetUp? && path in h.paths)
    requires !Rewritten(h, path) && !Read(After(w, before), h, path)
    ensures SettledAfter(w, before + [h], path)
  {
    OneMore(w, before, h, path);
    var v := After(w, before);
    assert Earlier(w, before, path) + [] == Earlier(w, before, path);
    if h.Modified? && h.path in v.files {
      ModifiedShips(v, h.path, path);
      assert Shipped(v.log, path) + [] == Shipped(v.log, path);
    }
    Grows(Shipped(w.log, path), Shipped(v.log, path), Content(v, path), Content(Step(v, h), path), Offset(v, path),
          Noticed(w, before, path), Unread(w, before, path), Start(w, before, path), Lives(w, before, path),
          Current(w, before, path));
  }

  lemma {:induction false} SettledRun(w: World, run: seq<Happening>, path: string)
    requires NeverSkipped(run, path) && Offset(w, path) <= |Content(w, path)|
    ensures SettledAfter(w, run, path)
  {
    if run == [] {
      assert Shipped(w.log, path) + ([] + []) == Shipped(w.log, path);
    } else {
      var n := |run| - 1;
      assert run == run[..n] + [run[n]];
      SettledRun(w, run[..n], path);
      if Rewritten(run[n], path) {
        SettledByRewriting(w, run[..n], run[n], path);
      } else if Read(After(w, run[..n]), run[n], path) {
        SettledByReading(w, run[..n], path);
      } else {
        SettledOtherwise(w, run[..n], run[n], path);
      }
    }
  }

  /** Over any run in which a file is appended to, rewritten and noticed any number of times, what
      is shipped for it is what it held in each of its lives when last read, one after the other,
      exactly when each rewriting is first noticed while the file is shorter than its offset or
      the offset is zero. Otherwise less is shipped. */
  lemma {:induction false} LivesExact(w: World, run: seq<Happening>, path: string)
    requires NeverSkipped(run, path) && Offset(w, path) <= |Content(w, path)|
    ensures Shipped(After(w, run).log, path) == Shipped(w.log, path) + Lives(w, run, path) <==> Noticed(w, run, path)
    ensures |Shipped(After(w, run).log, path)| <= |Shipped(w.log, path) + Lives(w, run, path)|
  {
    SettledRun(w, run, path);
  }
}
