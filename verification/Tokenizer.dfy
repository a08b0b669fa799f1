/** Cutting a line into words, in place. */
module Tokenizer {
  import opened CStrings

  const SPACE: char := ' '

  // ----- words -----

  /** A word starts here: not a space, and a space or nothing before it. */
  predicate IsStart(s: string, i: nat)
    requires i < |s|
  {
    s[i] != SPACE && (i == 0 || s[i - 1] == SPACE)
  }

  /** The first space at or after a position, or the end. */
  function End(s: string, p: nat): (e: nat)
    requires p <= |s|
    ensures p <= e <= |s| && SPACE !in s[p..e]
    ensures e < |s| ==> s[e] == SPACE
    decreases |s| - p
  {
    if p == |s| || s[p] == SPACE then p
    else
      var e := End(s, p + 1);
      assert s[p..e] == [s[p]] + s[p + 1..e];
      e
  }

  /** Where the words at or after a position start. */
  function Starts(s: string, p: nat): seq<nat>
    requires p <= |s|
    decreases |s| - p
  {
    if p == |s| then [] else StartHere(s, p) + Starts(s, p + 1)
  }

  function StartHere(s: string, i: nat): (here: seq<nat>)
    ensures |here| <= 1
  {
    if i < |s| && IsStart(s, i) then [i] else []
  }

  function WordAt(s: string, p: nat): string {
    if p <= |s| then s[p..End(s, p)] else []
  }

  /** The words that start at or after a position: the longest stretches without a space. */
  function Words(s: string, p: nat): (words: seq<string>)
    requires p <= |s|
    decreases |s| - p
  {
    if p == |s| then [] else (if IsStart(s, p) then [WordAt(s, p)] else []) + Words(s, p + 1)
  }

  lemma {:induction false} StartsAre(s: string, p: nat)
    requires p <= |s|
    ensures forall j :: 0 <= j < |Starts(s, p)| ==> p <= Starts(s, p)[j] < |s| && IsStart(s, Starts(s, p)[j])
    decreases |s| - p
  {
    if p < |s| {
      StartsAre(s, p + 1);
    }
  }

  /** There is a word for every start, and it is the one that starts there. */
  lemma {:induction false} WordsAre(s: string, p: nat)
    requires p <= |s|
    ensures |Words(s, p)| == |Starts(s, p)|
    ensures forall j :: 0 <= j < |Words(s, p)| ==> Words(s, p)[j] == WordAt(s, Starts(s, p)[j])
    decreases |s| - p
  {
    if p < |s| {
      WordsAre(s, p + 1);
    }
  }

  predicate WordShaped(t: string) {
    t != [] && SPACE !in t
  }

  lemma WordsShaped(s: string, p: nat)
    requires p <= |s|
    ensures forall j :: 0 <= j < |Words(s, p)| ==> WordShaped(Words(s, p)[j])
  {
    StartsAre(s, p);
    WordsAre(s, p);
    forall j | 0 <= j < |Words(s, p)| ensures WordShaped(Words(s, p)[j]) {
      var start := Starts(s, p)[j];
      assert IsStart(s, start);
      assert s[start..End(s, start)] != [];
    }
  }

  // ----- cutting in place -----

  /** What is left of a line once cut, in a buffer that a NUL ends: its words where they were,
      each followed by a NUL. A space at the very start may stay. */
  predicate Cut(line: string, original: string) {
    && |line| == |original| + 1 && line[|original|] == NUL
    && forall p :: 0 <= p < |original| ==>
      && (original[p] != SPACE ==> line[p] == original[p])
      && (original[p] == SPACE && p > 0 ==> line[p] == NUL)
  }

  /** The C string at a position. */
  function CString(line: string, p: nat): string
    requires p <= |line|
    decreases |line| - p
  {
    if p == |line| || line[p] == NUL then [] else [line[p]] + CString(line, p + 1)
  }

  /** A pointer to the start of a word in the line once cut reads that word. */
  lemma {:induction false} CutReads(line: string, original: string, p: nat)
    requires Cut(line, original) && NUL !in original && p <= |original|
    requires p == 0 ==> original != [] && original[0] != SPACE
    ensures CString(line, p) == original[p..End(original, p)]
    decreases |original| - p
  {
    if p < |original| && original[p] != SPACE {
      CutReads(line, original, p + 1);
      assert original[p] in original;
      assert original[p..End(original, p)] == [original[p]] + original[p + 1..End(original, p)];
    }
  }

  /** While position `i` is reached: spaces before the last one are cut, unless they only wait
      for the next word to start. */
  ghost predicate Cutting(line: string, original: string, i: nat, all: bool) {
    && |line| == |original| + 1 && i <= |original| + 1
    && (forall p :: 0 <= p < |original| && original[p] != SPACE ==> line[p] == original[p])
    && (forall p :: 0 <= p < |original| && i - 1 <= p ==> line[p] == original[p])
    && line[|original|] == NUL
    && (forall p :: 0 < p < i - 1 && original[p] == SPACE ==>
         line[p] == if !all && Blank(original, p, i) then SPACE else NUL)
  }

  /** Only spaces from `p` to `i`. */
  ghost predicate Blank(s: string, p: nat, i: nat) {
    i <= |s| && forall q :: p <= q < i ==> s[q] == SPACE
  }

  /** Cuts back from a space: it and those right before it. */
  method CutBack(line: array<char>, i: nat, ghost original: string, ghost all: bool)
    requires 0 < i <= |original| && original[i - 1] == SPACE && NUL !in original
    requires Cutting(line[..], original, i, all)
    requires i < |original| && original[i] == SPACE ==> all
    modifies line
    ensures Cutting(line[..], original, i + 1, all)
    ensures i < |original| && original[i] != SPACE ==> Cutting(line[..], original, i + 1, true)
  {
    line[i - 1] := NUL;
    var l := i - 2;
    while l > 0
      invariant l <= i - 2
      invariant forall p :: 0 <= p <= l ==> line[p] == old(line[p])
      invariant forall p :: i <= p < line.Length ==> line[p] == old(line[p])
      invariant forall p :: l < p < i && p >= 0 ==> line[p] == NUL && original[p] == SPACE
    {
      if line[l] != SPACE { break; }
      line[l] := NUL;
      l := l - 1;
    }
  }

  lemma Untouched(line: string, original: string, i: nat, all: bool)
    requires Cutting(line, original, i, all) && i <= |original| && NUL !in original
    ensures line[i] == if i < |original| then original[i] else NUL
    ensures i > 0 ==> line[i - 1] == original[i - 1] && line[i - 1] != NUL
  {
    if i > 0 {
      assert original[i - 1] in original;
    }
  }

  /** Where nothing is cut, the next position is reached as this one was. */
  lemma Passed(line: string, original: string, i: nat, all: bool)
    requires Cutting(line, original, i, all) && i <= |original|
    requires i == 0 || original[i - 1] != SPACE || (i < |original| && original[i] == SPACE && !all)
    ensures Cutting(line, original, i + 1, all)
    ensures i == 0 ==> Cutting(line, original, i + 1, true)
  {
  }

  /** The pass that counts the words. */
  method Count(line: array<char>, size: nat, ghost original: string) returns (argc: nat)
    requires size == |original| && line[..] == original + [NUL]
    ensures argc == |Starts(original, 0)|
  {
    argc := 0;
    for i := 0 to size
      invariant argc + |Starts(original, i)| == |Starts(original, 0)|
    {
      if (i == 0 || line[i - 1] == SPACE) && line[i] != SPACE { argc := argc + 1; }
    }
  }

  /** The words that start at a position or after it. */
  lemma StartsStep(s: string, i: nat)
    requires i <= |s|
    ensures StartsOf(s, i) == StartHere(s, i) + StartsOf(s, i + 1)
    ensures i == |s| ==> StartsOf(s, i) == []
  {
  }

  /** One position of the pass that fills in: a word that starts there is recorded, and the
      space before it, or after the last word, is cut. */
  method Fill(line: array<char>, argv: array<nat>, k: nat, i: nat, ghost original: string) returns (next: nat)
    requires k <= argv.Length && i <= |original| && NUL !in original
    requires Cutting(line[..], original, i, k == argv.Length)
    requires StartHere(original, i) != [] ==> k < argv.Length
    requires i == |original| ==> k == argv.Length
    modifies line, argv
    ensures next == k + |StartHere(original, i)| && next <= argv.Length
    ensures argv[..next] == old(argv[..k]) + StartHere(original, i)
    ensures Cutting(line[..], original, i + 1, next == argv.Length)
  {
    ghost var text, all := line[..], k == argv.Length;
    Untouched(text, original, i, all);
    next := k;
    if (i == 0 || line[i - 1] == NUL || line[i - 1] == SPACE) && (line[i] != SPACE || k == argv.Length) {
      if k < argv.Length {
        argv[k] := i;
        next := k + 1;
      }
      assert line[..] == text;
      if i > 0 {
        CutBack(line, i, original, all);
      } else {
        Passed(text, original, i, all);
      }
    } else {
      Passed(text, original, i, all);
    }
  }

  /** Counts the words, then fills in where each starts, cutting the line between them. */
  method Parse(line: array<char>, size: nat, ghost original: string) returns (argv: array<nat>)
    requires size == |original| && line[..] == original + [NUL] && NUL !in original
    modifies line
    ensures fresh(argv) && argv[..] == Starts(original, 0)
    ensures Cut(line[..], original)
  {
    var argc := Count(line, size, original);
    argv := new nat[argc];
    var k := 0;
    ghost var all := Starts(original, 0);
    for i := 0 to size + 1
      invariant 0 <= k <= argc == |all| && argv[..k] == all[..k] && StartsOf(original, i) == all[k..]
      invariant Cutting(line[..], original, i, k == argc)
    {
      NextStart(original, all, k, i);
      k := Fill(line, argv, k, i, original);
    }
    assert argv[..] == argv[..k] == all;
  }

  lemma NextStart(s: string, all: seq<nat>, k: nat, i: nat)
    requires i <= |s| && k <= |all| && StartsOf(s, i) == all[k..]
    ensures var next := k + |StartHere(s, i)|;
      next <= |all| && StartsOf(s, i + 1) == all[next..] && all[..next] == all[..k] + StartHere(s, i)
    ensures StartHere(s, i) != [] ==> k < |all|
    ensures i == |s| ==> k == |all|
  {
    StartsStep(s, i);
    Shift(all, k, StartHere(s, i), StartsOf(s, i + 1));
  }

  lemma Shift(all: seq<nat>, k: nat, here: seq<nat>, rest: seq<nat>)
    requires k <= |all| && all[k..] == here + rest
    ensures k + |here| <= |all| && rest == all[k + |here|..] && all[..k + |here|] == all[..k] + here
  {
    assert all[k..][..|here|] == here && all[k..][|here|..] == rest;
    assert all[..k + |here|] == all[..k] + all[k..][..|here|];
  }

  function StartsOf(s: string, i: nat): seq<nat> {
    if i <= |s| then Starts(s, i) else []
  }

  /** The pointers read the words, in order. */
  lemma PointersRead(line: string, original: string, j: nat)
    requires Cut(line, original) && NUL !in original && j < |Starts(original, 0)|
    ensures Starts(original, 0)[j] <= |original| && j < |Words(original, 0)|
    ensures CString(line, Starts(original, 0)[j]) == Words(original, 0)[j]
  {
    StartsAre(original, 0);
    WordsAre(original, 0);
    CutReads(line, original, Starts(original, 0)[j]);
  }

  // ----- printing -----

  /** Words with a space between each two. */
  function Join(tokens: seq<string>): string {
    if tokens == [] then []
    else if |tokens| == 1 then tokens[0]
    else tokens[0] + [SPACE] + Join(tokens[1..])
  }

  lemma {:induction false} EndShift(a: string, b: string, p: nat)
    requires p <= |b|
    ensures End(a + b, |a| + p) == |a| + End(b, p)
    decreases |b| - p
  {
    if p < |b| && b[p] != SPACE {
      EndShift(a, b, p + 1);
    }
  }

  lemma {:induction false} WordsShift(a: string, b: string, p: nat)
    requires p <= |b| && (p == 0 ==> a == [] || a[|a| - 1] == SPACE)
    ensures Words(a + b, |a| + p) == Words(b, p)
    decreases |b| - p
  {
    if p < |b| {
      WordsShift(a, b, p + 1);
      EndShift(a, b, p);
      assert IsStart(a + b, |a| + p) <==> IsStart(b, p);
      assert WordAt(a + b, |a| + p) == WordAt(b, p);
      assert Words(a + b, |a| + p + 1) == Words(b, p + 1);
    }
  }

  /** Inside a word, and at the space after it, no word starts. */
  lemma {:induction false} WordsInside(s: string, p: nat, e: nat)
    requires 0 < p <= e <= |s| && SPACE !in s[p - 1..e]
    ensures Words(s, p) == Words(s, e)
    decreases e - p
  {
    if p < e {
      assert s[p - 1] in s[p - 1..e];
      assert s[p..e] == s[p - 1..e][1..];
      WordsInside(s, p + 1, e);
    }
  }

  lemma WordThenRest(t: string, rest: string)
    requires WordShaped(t)
    ensures Words(t, 0) == [t]
    ensures Words(t + [SPACE] + rest, 0) == [t] + Words(rest, 0)
  {
    var s := t + [SPACE] + rest;
    EndOfWord(t, t, 0);
    EndOfWord(t, s, 0);
    WordsInside(t, 1, |t|);
    WordsInside(s, 1, |t|);
    WordsShift(t + [SPACE], rest, 0);
    assert Words(s, |t|) == Words(s, |t| + 1);
    assert s[..|t|] == t && t[..|t|] == t;
  }

  lemma {:induction false} EndOfWord(t: string, s: string, p: nat)
    requires p <= |t| && t <= s && SPACE !in t && (|t| < |s| ==> s[|t|] == SPACE)
    ensures End(s, p) == |t|
    decreases |t| - p
  {
    if p < |t| {
      assert s[p] == t[p] && t[p] in t;
      EndOfWord(t, s, p + 1);
    }
  }

  /** Cutting what was printed gives the words back exactly when they are words. */
  lemma {:induction false} JoinExact(tokens: seq<string>)
    ensures Words(Join(tokens), 0) == tokens <==> forall j :: 0 <= j < |tokens| ==> WordShaped(tokens[j])
  {
    WordsShaped(Join(tokens), 0);
    if forall j :: 0 <= j < |tokens| ==> WordShaped(tokens[j]) {
      JoinWords(tokens);
    }
  }

  lemma {:induction false} JoinWords(tokens: seq<string>)
    requires forall j :: 0 <= j < |tokens| ==> WordShaped(tokens[j])
    ensures Words(Join(tokens), 0) == tokens
  {
    if tokens == [] {
    } else if |tokens| == 1 {
      WordThenRest(tokens[0], []);
    } else {
      JoinWords(tokens[1..]);
      WordThenRest(tokens[0], Join(tokens[1..]));
    }
  }
}
