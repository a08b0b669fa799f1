/** The broker list read from ZooKeeper: how it is printed, and what a notification does with it. */
module Brokers {
  import opened CStrings
  import opened StringList
  import opened Tokenizer

  const BROKER_PATH := "/brokers/ids"

  /** A child of the broker path: data with a host and a port, or anything else. */
  datatype Node = Broker(host: string, port: int) | Malformed

  function Decimal(n: int): (d: string)
    ensures d != [] && COMMA !in d && NUL !in d
    decreases n < 0, n
  {
    if n < 0 then "-" + Decimal(-n)
    else if n < 10 then [('0' as int + n) as char]
    else Decimal(n / 10) + [('0' as int + n % 10) as char]
  }

  predicate Digits(d: string) {
    forall i :: 0 <= i < |d| ==> '0' <= d[i] <= '9'
  }

  /** The number that a string of decimal digits stands for. */
  function Number(d: string): nat
    requires Digits(d)
  {
    if d == [] then 0 else 10 * Number(d[..|d| - 1]) + (d[|d| - 1] as nat - '0' as nat)
  }

  /** A number is printed in decimal digits that stand for it, none of them a leading zero, behind a
      minus sign if it is below zero. */
  lemma {:induction false} DecimalExact(n: int)
    ensures n >= 0 ==> Digits(Decimal(n)) && Number(Decimal(n)) == n && (n > 0 ==> Decimal(n)[0] != '0')
    ensures n < 0 ==> Decimal(n) == ['-'] + Decimal(-n)
    ensures Decimal(0) == ['0']
    decreases if n < 0 then -n else n
  {
    if n >= 10 {
      DecimalExact(n / 10);
      var d := Decimal(n);
      assert d[..|d| - 1] == Decimal(n / 10);
    } else if n >= 0 {
      assert Decimal(n)[..0] == [];
    }
  }

  function Text(host: string, port: int): string {
    host + ":" + Decimal(port)
  }

  /** The brokers among the nodes. */
  function Texts(nodes: seq<Node>): seq<string> {
    if nodes == [] then []
    else
      var last := nodes[|nodes| - 1];
      Texts(nodes[..|nodes| - 1]) + if last.Broker? then [Text(last.host, last.port)] else []
  }

  /** What is written for the first `n` nodes: each broker, with a comma unless it is the last node. */
  function Printed(nodes: seq<Node>, n: nat): string
    requires n <= |nodes|
  {
    if n == 0 then []
    else
      var last := nodes[n - 1];
      Printed(nodes, n - 1) +
      if last.Broker? then Text(last.host, last.port) + (if n < |nodes| then [COMMA] else []) else []
  }

  /** There are brokers, but the last node is not one of them. */
  predicate Trailing(nodes: seq<Node>) {
    Texts(nodes) != [] && !nodes[|nodes| - 1].Broker?
  }

  function JoinedWithCommas(ts: seq<string>): string {
    if ts == [] then [] else JoinedWithCommas(ts[..|ts| - 1]) + ts[|ts| - 1] + [COMMA]
  }

  lemma {:induction false} EachWithComma(nodes: seq<Node>, n: nat)
    requires n < |nodes|
    ensures Printed(nodes, n) == JoinedWithCommas(Texts(nodes[..n]))
  {
    if n > 0 {
      EachWithComma(nodes, n - 1);
      assert nodes[..n][..n - 1] == nodes[..n - 1];
      var ts := Texts(nodes[..n]);
      if nodes[n - 1].Broker? {
        assert ts[..|ts| - 1] == Texts(nodes[..n - 1]);
      } else {
        assert ts == Texts(nodes[..n - 1]);
      }
    }
  }

  lemma {:induction false} JoinLast(ts: seq<string>, t: string)
    ensures JoinCommas(ts + [t]) == JoinedWithCommas(ts) + t
  {
    if ts == [] {
    } else {
      var first, rest := ts[0], ts[1..];
      JoinLast(rest, t);
      assert (ts + [t])[1..] == rest + [t];
      FirstOut(ts);
    }
  }

  lemma {:induction false} FirstOut(ts: seq<string>)
    requires ts != []
    ensures JoinedWithCommas(ts) == ts[0] + [COMMA] + JoinedWithCommas(ts[1..])
  {
    if |ts| > 1 {
      var n := |ts| - 1;
      FirstOut(ts[..n]);
      assert ts[..n][1..] == ts[1..][..n - 1];
    }
  }

  /** What is printed is the brokers joined by commas, and one comma more when the last node is
      not a broker. */
  lemma PrintedJoins(nodes: seq<Node>)
    ensures Printed(nodes, |nodes|) == JoinCommas(Texts(nodes)) + if Trailing(nodes) then [COMMA] else []
  {
    if nodes != [] {
      var n := |nodes| - 1;
      var ts := Texts(nodes[..n]);
      EachWithComma(nodes, n);
      if nodes[n].Broker? {
        JoinLast(ts, Text(nodes[n].host, nodes[n].port));
        assert !Trailing(nodes);
      } else {
        assert Texts(nodes) == ts;
        assert Printed(nodes, |nodes|) == JoinedWithCommas(ts);
        WithoutLastComma(ts);
      }
    }
  }

  lemma WithoutLastComma(ts: seq<string>)
    ensures JoinedWithCommas(ts) == JoinCommas(ts) + if ts == [] then [] else [COMMA]
  {
    if ts != [] {
      var n := |ts| - 1;
      JoinLast(ts[..n], ts[n]);
      assert ts[..n] + [ts[n]] == ts;
    }
  }

  lemma {:induction false} PrintedGrows(nodes: seq<Node>, n: nat, m: nat)
    requires n <= m <= |nodes|
    ensures Printed(nodes, n) <= Printed(nodes, m)
    ensures (Printed(nodes, n) == [] <==> Texts(nodes[..n]) == [])
    decreases m - n, n
  {
    if n < m {
      PrintedGrows(nodes, n, m - 1);
    } else if n > 0 {
      PrintedGrows(nodes, n - 1, n - 1);
      assert nodes[..n][..n - 1] == nodes[..n - 1];
    }
  }

  /** Writes a string and the NUL that ends it. */
  method WriteString(buffer: array<char>, at: nat, s: string)
    requires at + |s| < buffer.Length
    modifies buffer
    ensures buffer[..at] == old(buffer[..at]) && buffer[at..at + |s|] == s && buffer[at + |s|] == NUL
    ensures buffer[at + |s| + 1..] == old(buffer[at + |s| + 1..])
  {
    for k := 0 to |s|
      invariant buffer[..at] == old(buffer[..at]) && buffer[at..at + k] == s[..k]
      invariant buffer[at + k..] == old(buffer[at + k..])
    {
      buffer[at + k] := s[k];
    }
    buffer[at + |s|] := NUL;
  }

  /** Prints the brokers into a buffer that starts with a NUL. Past what it writes, the buffer
      stays as it was. */
  method Print(nodes: seq<Node>, buffer: array<char>)
    requires |Printed(nodes, |nodes|)| < buffer.Length && buffer[0] == NUL
    modifies buffer
    ensures buffer[..|Printed(nodes, |nodes|)|] == Printed(nodes, |nodes|)
    ensures !Trailing(nodes) ==> buffer[|Printed(nodes, |nodes|)|] == NUL
    ensures Trailing(nodes) ==> buffer[|Printed(nodes, |nodes|)|..] == old(buffer[|Printed(nodes, |nodes|)|..])
  {
    var at := 0;
    for i := 0 to |nodes|
      invariant at == |Printed(nodes, i)| < buffer.Length && buffer[..at] == Printed(nodes, i)
      invariant at == 0 ==> buffer[0] == NUL
      invariant i == 0 || i < |nodes| || !nodes[i - 1].Broker? ==> buffer[at..] == old(buffer[at..])
      invariant i == |nodes| > 0 && nodes[i - 1].Broker? ==> buffer[at] == NUL
    {
      PrintedGrows(nodes, i + 1, |nodes|);
      if nodes[i].Broker? {
        at := PrintBroker(buffer, at, Text(nodes[i].host, nodes[i].port), i == |nodes| - 1, Printed(nodes, i));
      }
    }
    PrintedGrows(nodes, |nodes|, |nodes|);
    assert nodes[..|nodes|] == nodes;
  }

  /** Prints one broker, and the comma in place of the NUL unless it is the last node. */
  method PrintBroker(buffer: array<char>, at: nat, text: string, last: bool, ghost before: string) returns (next: nat)
    requires at == |before| && buffer.Length > at && buffer[..at] == before && text != []
    requires |before + text + if last then [] else [COMMA]| < buffer.Length
    modifies buffer
    ensures var after := before + text + if last then [] else [COMMA];
      && next == |after| && buffer[..next] == after
      && (if last then buffer[next] == NUL else buffer[next..] == old(buffer[next..]))
  {
    WriteString(buffer, at, text);
    next := at + |text|;
    assert buffer[..next] == buffer[..at] + buffer[at..next] == before + text;
    if !last {
      ghost var rest := buffer[next + 1..];
      buffer[next] := COMMA;
      next := next + 1;
      assert buffer[next..] == rest;
    }
  }

  // ----- the text that comes out -----

  predicate NulFree(nodes: seq<Node>) {
    forall i :: 0 <= i < |nodes| && nodes[i].Broker? ==> NUL !in nodes[i].host
  }

  lemma {:induction false} PrintedNulFree(nodes: seq<Node>, n: nat)
    requires n <= |nodes| && NulFree(nodes)
    ensures NUL !in Printed(nodes, n)
  {
    if n > 0 {
      PrintedNulFree(nodes, n - 1);
    }
  }

  lemma {:induction false} CStringAfter(b: string, p: nat, e: nat)
    requires p <= e <= |b| && NUL !in b[p..e]
    ensures CString(b, p) == b[p..e] + CString(b, e)
    decreases e - p
  {
    if p < e {
      assert b[p..e] == [b[p]] + b[p + 1..e];
      CStringAfter(b, p + 1, e);
    }
  }

  lemma {:induction false} CStringSame(b: string, c: string, p: nat)
    requires p <= |b| == |c| && b[p..] == c[p..]
    ensures CString(b, p) == CString(c, p)
    decreases |b| - p
  {
    if p < |b| {
      assert b[p] == b[p..][0] && c[p] == c[p..][0];
      assert b[p + 1..] == b[p..][1..] && c[p + 1..] == c[p..][1..];
      CStringSame(b, c, p + 1);
    }
  }

  /** The text read from the buffer: the brokers joined by commas; after a last node that is not
      a broker, a comma and whatever the buffer held there. */
  function Listed(nodes: seq<Node>, stale: string): string
    requires |Printed(nodes, |nodes|)| <= |stale|
  {
    JoinCommas(Texts(nodes)) + if Trailing(nodes) then [COMMA] + CString(stale, |Printed(nodes, |nodes|)|) else []
  }

  lemma PrintedReads(nodes: seq<Node>, buffer: string, stale: string)
    requires NulFree(nodes) && |Printed(nodes, |nodes|)| < |buffer| == |stale|
    requires buffer[..|Printed(nodes, |nodes|)|] == Printed(nodes, |nodes|)
    requires !Trailing(nodes) ==> buffer[|Printed(nodes, |nodes|)|] == NUL
    requires Trailing(nodes) ==> buffer[|Printed(nodes, |nodes|)|..] == stale[|Printed(nodes, |nodes|)|..]
    ensures CString(buffer, 0) == Listed(nodes, stale)
  {
    var e := |Printed(nodes, |nodes|)|;
    PrintedNulFree(nodes, |nodes|);
    PrintedJoins(nodes);
    assert buffer[0..e] == buffer[..e];
    CStringAfter(buffer, 0, e);
    if Trailing(nodes) {
      CStringSame(buffer, stale, e);
    }
  }

  /** The text is exactly the brokers joined by commas if and only if the last node is a broker,
      or none is. */
  lemma ListedExact(nodes: seq<Node>, stale: string)
    requires |Printed(nodes, |nodes|)| <= |stale|
    ensures Listed(nodes, stale) == JoinCommas(Texts(nodes)) <==> Texts(nodes) == [] || nodes[|nodes| - 1].Broker?
  {
    assert |Listed(nodes, stale)| > |JoinCommas(Texts(nodes))| <==> Trailing(nodes);
  }

  /** A node that is not a broker at the end leaves a comma behind the last broker. */
  lemma CommaTrails(stale: string)
    requires |stale| >= 4
    ensures var nodes := [Broker("a", 1), Malformed];
      && Texts(nodes) == ["a:1"] && Printed(nodes, 2) == "a:1,"
      && Listed(nodes, stale) != JoinCommas(Texts(nodes))
  {
    var nodes := [Broker("a", 1), Malformed];
    assert nodes[..1] == [nodes[0]] && nodes[..1][..0] == [];
    assert Texts(nodes[..1]) == [Text("a", 1)] && Text("a", 1) == "a:1";
    assert Printed(nodes, 1) == "a:1" + [COMMA];
    ListedExact(nodes, stale);
  }
}
