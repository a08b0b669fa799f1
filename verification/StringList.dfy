/** The growable list of servers, and the splitting of a comma-separated list into it. */
module StringList {
  import opened CStrings
  import opened Tokenizer

  const STEP := 10

  // ----- the list as a value -----

  function Added(list: seq<string>, t: string): seq<string> {
    if t in list then list else list + [t]
  }

  function AddedAll(list: seq<string>, ts: seq<string>): (all: seq<string>)
    ensures list <= all
  {
    if ts == [] then list else Added(AddedAll(list, ts[..|ts| - 1]), ts[|ts| - 1])
  }

  predicate Distinct(list: seq<string>) {
    forall i, j :: 0 <= i < j < |list| ==> list[i] != list[j]
  }

  /** The strings of a sequence without those that have occurred before, in order. */
  function Firsts(ts: seq<string>, n: nat): seq<string>
    requires n <= |ts|
  {
    if n == 0 then [] else Firsts(ts, n - 1) + if ts[n - 1] in ts[..n - 1] then [] else [ts[n - 1]]
  }

  /** Adding one by one keeps the strings distinct and in order of first appearance, and changes
      the list exactly when one of them is new. */
  lemma {:induction false} AddedFirsts(before: seq<string>, ts: seq<string>)
    ensures var all := before + ts;
      && AddedAll(Firsts(before, |before|), ts) == Firsts(all, |all|)
      && Distinct(Firsts(all, |all|))
      && (forall t :: t in Firsts(all, |all|) <==> t in all)
      && (AddedAll(Firsts(before, |before|), ts) != Firsts(before, |before|) <==> exists t :: t in ts && t !in before)
  {
    var all := before + ts;
    if ts == [] {
      assert all == before;
      FirstsHold(before, |before|);
    } else {
      var n := |ts| - 1;
      var part, last := ts[..n], ts[n];
      AddedFirsts(before, part);
      FirstsPrefix(before + part, all, |before| + n);
      assert all[..|all| - 1] == before + part;
      FirstsHold(all, |all|);
      assert ts == part + [last];
    }
  }

  lemma {:induction false} FirstsPrefix(ts: seq<string>, us: seq<string>, n: nat)
    requires n <= |ts| && ts <= us
    ensures Firsts(ts, n) == Firsts(us, n)
  {
    if n > 0 {
      FirstsPrefix(ts, us, n - 1);
      assert ts[..n - 1] == us[..n - 1];
    }
  }

  lemma {:induction false} FirstsHold(ts: seq<string>, n: nat)
    requires n <= |ts|
    ensures Distinct(Firsts(ts, n))
    ensures forall t :: t in Firsts(ts, n) <==> t in ts[..n]
  {
    if n > 0 {
      FirstsHold(ts, n - 1);
      assert ts[..n] == ts[..n - 1] + [ts[n - 1]];
    }
  }

  // ----- the list -----

  /** Which allocations of one call succeed: of the list, of its first array, of a larger array,
      of a copy of the string. */
  datatype Allocation = Allocation(list: bool, first: bool, larger: bool, copy: bool)

  const PLENTY := Allocation(true, true, true, true)

  class Strings {
    var slots: array?<string>
    var size: nat
    var maxSize: nat

    predicate Valid()
      reads this, slots
    {
      slots != null && size <= maxSize == slots.Length
    }

    function Contents(): seq<string>
      requires Valid()
      reads this, slots
    {
      slots[..size]
    }

    constructor (first: bool)
      ensures size == 0 && maxSize == STEP && (slots != null <==> first)
      ensures first ==> Valid() && fresh(slots)
    {
      size, maxSize := 0, STEP;
      if first { slots := new string[STEP](_ => ""); } else { slots := null; }
    }
  }

  /** The pointer to a list that the client keeps. */
  class Servers {
    var list: Strings?

    constructor ()
      ensures list == null
    {
      list := null;
    }

    /** No list yet, or one that has its array. */
    predicate Valid()
      reads this, list, Slots()
    {
      list != null ==> list.Valid()
    }

    function Contents(): seq<string>
      requires Valid()
      reads this, list, Slots()
    {
      if list == null then [] else list.Contents()
    }

    function Slots(): array?<string>
      reads this, list
    {
      if list == null then null else list.slots
    }

    /** The slots that there are: a multiple of ten, and at most ten more than are used. */
    predicate Tight()
      reads this, list
    {
      list != null ==> list.maxSize % STEP == 0 && (list.maxSize == STEP || list.maxSize <= list.size + STEP)
    }

    method Contains(s: string) returns (yes: bool)
      requires Valid()
      ensures yes <==> s in Contents()
    {
      if list == null { return false; }
      for i := 0 to list.size
        invariant s !in list.slots[..i]
      {
        if list.slots[i] == s { return true; }
      }
      return false;
    }

    method Resize(ok: bool) returns (failed: bool)
      requires list != null && list.Valid()
      modifies list
      ensures list == old(list) && list.Valid() && failed == !ok && list.Contents() == old(list.Contents())
      ensures list.maxSize == old(list.maxSize) + (if ok then 10 else 0) && list.size == old(list.size)
      ensures if ok then fresh(list.slots) else list.slots == old(list.slots)
    {
      if !ok { return true; }
      var was := list.slots;
      var larger := new string[list.maxSize + STEP](i requires 0 <= i reads was =>
        if i < was.Length then was[i] else "");
      list.maxSize := list.maxSize + STEP;
      list.slots := larger;
      return false;
    }

    /** Adds a copy at the end. 0 says that it was added; 1 that there is no list, 2 that it could
        not grow, 3 that there is no copy. A list whose first array could not be allocated stays
        behind without one, and the next addition would write through it. */
    method Add(s: string, alloc: Allocation) returns (code: nat)
      requires Valid()
      modifies this, list, Slots()
      ensures code <= 3 && (list != old(list) ==> fresh(list))
      ensures code == 0 <==> old(Fits(alloc)) && alloc.copy
      ensures !Valid() <==> old(list) == null && alloc.list && !alloc.first
      ensures Valid() ==> Contents() == if code == 0 then old(Contents()) + [s] else old(Contents())
      ensures Valid() && list != null ==> Slots() == old(Slots()) || fresh(Slots())
      ensures Valid() && old(Tight()) ==> Tight()
    {
      if list == null {
        if !alloc.list { return 1; }
        list := new Strings(alloc.first);
        if !alloc.first { return 1; }
      }
      if list.size >= list.maxSize {
        var failed := Resize(alloc.larger);
        if failed { return 2; }
      }
      if !alloc.copy { return 3; }
      list.slots[list.size] := s;
      list.size := list.size + 1;
      return 0;
    }

    /** The memory that one more string needs is there. */
    predicate Fits(alloc: Allocation)
      reads this, list
    {
      if list == null then alloc.list && alloc.first else list.size < list.maxSize || alloc.larger
    }

    /** 0 says that the string was there already, 1 that it was added, 2 that it could not be. */
    method AddOnce(s: string, alloc: Allocation) returns (code: nat)
      requires Valid()
      modifies this, list, Slots()
      ensures code <= 2 && (list != old(list) ==> fresh(list))
      ensures code == 0 <==> s in old(Contents())
      ensures code == 1 <==> s !in old(Contents()) && old(Fits(alloc)) && alloc.copy
      ensures !Valid() <==> old(list) == null && alloc.list && !alloc.first
      ensures Valid() ==> Contents() == if code == 1 then Added(old(Contents()), s) else old(Contents())
      ensures Valid() && list != null ==> Slots() == old(Slots()) || fresh(Slots())
      ensures Valid() && old(Tight()) ==> Tight()
    {
      var there := Contains(s);
      if there { return 0; }
      var failed := Add(s, alloc);
      return if failed != 0 then 2 else 1;
    }
  }

  // ----- splitting at commas -----

  const COMMA: char := ','

  /** The first comma at or after a position, or the end. */
  function FieldEnd(s: string, p: nat): (e: nat)
    requires p <= |s|
    ensures p <= e <= |s| && COMMA !in s[p..e]
    ensures e < |s| ==> s[e] == COMMA
    decreases |s| - p
  {
    if p == |s| || s[p] == COMMA then p
    else
      var e := FieldEnd(s, p + 1);
      assert s[p..e] == [s[p]] + s[p + 1..e];
      e
  }

  /** What stands between the commas, from a position on. */
  function Fields(s: string, p: nat): (fields: seq<string>)
    requires p <= |s|
    ensures fields != []
    decreases |s| - p
  {
    var e := FieldEnd(s, p);
    if e == |s| then [s[p..e]] else [s[p..e]] + Fields(s, e + 1)
  }

  function JoinCommas(tokens: seq<string>): string {
    if tokens == [] then []
    else if |tokens| == 1 then tokens[0]
    else tokens[0] + [COMMA] + JoinCommas(tokens[1..])
  }

  lemma {:induction false} FieldEndOf(t: string, s: string, p: nat)
    requires p <= |t| && t <= s && COMMA !in t && (|t| < |s| ==> s[|t|] == COMMA)
    ensures FieldEnd(s, p) == |t|
    decreases |t| - p
  {
    if p < |t| {
      assert s[p] == t[p] && t[p] in t;
      FieldEndOf(t, s, p + 1);
    }
  }

  lemma {:induction false} FieldEndShift(a: string, b: string, p: nat)
    requires p <= |b|
    ensures FieldEnd(a + b, |a| + p) == |a| + FieldEnd(b, p)
    decreases |b| - p
  {
    if p < |b| && b[p] != COMMA {
      FieldEndShift(a, b, p + 1);
    }
  }

  lemma {:induction false} FieldsShift(a: string, b: string, p: nat)
    requires p <= |b|
    ensures Fields(a + b, |a| + p) == Fields(b, p)
    decreases |b| - p
  {
    var e := FieldEnd(b, p);
    FieldEndShift(a, b, p);
    SliceShift(a, b, p, e);
    if e < |b| {
      FieldsShift(a, b, e + 1);
      assert |a| + (e + 1) == |a| + e + 1;
    }
  }

  lemma SliceShift(a: string, b: string, p: nat, e: nat)
    requires p <= e <= |b|
    ensures (a + b)[|a| + p..|a| + e] == b[p..e] && (e < |b| ==> (a + b)[|a| + e] == b[e])
  {
  }

  /** Splitting recovers what was joined, when there is something and no commas in it. */
  lemma {:induction false} SplitJoined(tokens: seq<string>)
    requires tokens != [] && forall j :: 0 <= j < |tokens| ==> COMMA !in tokens[j]
    ensures Fields(JoinCommas(tokens), 0) == tokens
  {
    var t, s := tokens[0], JoinCommas(tokens);
    if |tokens| == 1 {
      FieldEndOf(t, s, 0);
      assert s[0..|t|] == t;
    } else {
      var rest := JoinCommas(tokens[1..]);
      SplitJoined(tokens[1..]);
      FieldEndOf(t, s, 0);
      FieldsShift(t + [COMMA], rest, 0);
      assert s == t + [COMMA] + rest && s[0..|t|] == t;
    }
  }

  /** The C string at a position, up to the first NUL, when none comes earlier. */
  lemma {:induction false} ReadsUpTo(b: string, p: nat, e: nat)
    requires p <= e < |b| && b[e] == NUL && NUL !in b[p..e]
    ensures CString(b, p) == b[p..e]
    decreases e - p
  {
    if p < e {
      assert b[p..e] == [b[p]] + b[p + 1..e];
      ReadsUpTo(b, p + 1, e);
    }
  }

  /** Adds the field from `server` to `i`: it is cut off with a NUL meanwhile, and the comma put
      back. All memory that is asked for is given. */
  method AddField(list: Servers, servers: array<char>, server: nat, i: nat) returns (added: bool)
    requires list.Valid() && server <= i < servers.Length && (servers[i] == NUL || servers[i] == COMMA) &&
      NUL !in servers[server..i]
    modifies list, servers, list.list, list.Slots()
    ensures servers[..] == old(servers[..])
    ensures list.Valid() && list.Contents() == Added(old(list.Contents()), servers[server..i])
    ensures added <==> list.Contents() != old(list.Contents())
    ensures old(list.Tight()) ==> list.Tight()
    ensures list.list == old(list.list) || fresh(list.list)
    ensures list.Slots() == old(list.Slots()) || fresh(list.Slots())
  {
    ghost var before, field := servers[..], servers[server..i];
    var zero := servers[i] == NUL;
    if !zero { servers[i] := NUL; }
    assert servers[server..i] == field;
    ReadsUpTo(servers[..], server, i);
    assert servers[..][server..i] == field;
    var s := CString(servers[..], server);
    var code := list.AddOnce(s, PLENTY);
    if !zero { servers[i] := COMMA; }
    added := code != 0;
    assert servers[..] == before;
  }

  /** Adds every field of the list that stands in a buffer, and says whether one of them was new. */
  method AddServers(list: Servers, servers: array<char>, length: nat) returns (result: bool)
    requires list.Valid() && length < servers.Length && servers[length] == NUL && NUL !in servers[..length]
    modifies list, servers, list.list, list.Slots()
    ensures servers[..] == old(servers[..])
    ensures list.Valid() && list.Contents() == AddedAll(old(list.Contents()), Fields(old(servers[..length]), 0))
    ensures result <==> list.Contents() != old(list.Contents())
    ensures old(list.Tight()) ==> list.Tight()
    ensures list.list == old(list.list) || fresh(list.list)
    ensures list.Slots() == old(list.Slots()) || fresh(list.Slots())
  {
    var server := 0;
    result := false;
    ghost var text, was, k := servers[..length], list.Contents(), 0;
    ghost var all := Fields(text, 0);
    for i := 0 to length + 1
      invariant servers[..] == old(servers[..])
      invariant server <= i && if i <= length then i <= FieldEnd(text, server) else server == i
      invariant k <= |all| && FieldsOf(text, server) == all[k..]
      invariant list.Valid() && list.Contents() == AddedAll(was, all[..k]) && (old(list.Tight()) ==> list.Tight())
      invariant list.list == old(list.list) || fresh(list.list)
      invariant list.Slots() == old(list.Slots()) || fresh(list.Slots())
      invariant result <==> list.Contents() != was
    {
      AtField(servers[..], text, server, i);
      if servers[i] == NUL || servers[i] == COMMA {
        ghost var field := servers[server..i];
        FieldDone(text, server, i, all, k);
        AddedMore(was, all[..k], field);
        var added := AddField(list, servers, server, i);
        result := result || added;
        server := i + 1;
        k := k + 1;
      }
    }
    assert all[..k] == all;
  }

  function FieldsOf(s: string, p: nat): seq<string> {
    if p <= |s| then Fields(s, p) else []
  }

  lemma FieldDone(text: string, server: nat, e: nat, all: seq<string>, k: nat)
    requires server <= |text| && e == FieldEnd(text, server)
    requires k <= |all| && FieldsOf(text, server) == all[k..]
    ensures k < |all| && all[..k + 1] == all[..k] + [text[server..e]] && FieldsOf(text, e + 1) == all[k + 1..]
  {
    var f, rest := text[server..e], FieldsOf(text, e + 1);
    assert Fields(text, server) == [f] + rest;
    assert all[k] == ([f] + rest)[0] == f;
    assert all[k + 1..] == all[k..][1..] == ([f] + rest)[1..] == rest;
  }

  lemma AddedMore(was: seq<string>, done: seq<string>, t: string)
    ensures AddedAll(was, done + [t]) == Added(AddedAll(was, done), t)
    ensures AddedAll(was, done) != was ==> AddedAll(was, done + [t]) != was
  {
    assert (done + [t])[..|done|] == done;
  }

  /** Inside a field, and at its end. */
  lemma AtField(b: string, text: string, server: nat, i: nat)
    requires |text| < |b| && b[..|text|] == text && b[|text|] == NUL && NUL !in text
    requires server <= i <= |text| && i <= FieldEnd(text, server)
    ensures (b[i] == NUL <==> i == |text|) && NUL !in b[server..i]
    ensures i == |text| || b[i] == COMMA ==> i == FieldEnd(text, server) && b[server..i] == text[server..i]
    ensures i < |text| && b[i] != COMMA ==> i < FieldEnd(text, server)
  {
    assert forall k :: 0 <= k < |text| ==> b[k] == b[..|text|][k] == text[k];
    assert i < |text| ==> text[i] in text && b[i] == text[i];
    assert b[server..i] == text[server..i];
    if i < FieldEnd(text, server) {
      assert text[i] == text[server..FieldEnd(text, server)][i - server];
    }
    assert forall c :: c in text[server..i] ==> c in text;
  }
}
