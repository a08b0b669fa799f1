/** The watcher: what a client knows of the brokers after any sequence of notifications. */
module Watching {
  import opened Attempts
  import opened Brokers
  import opened CStrings
  import opened StringList
  import opened Tokenizer

  /** The brokers a client has recorded, whether it still waits for some, and the lists it has
      passed to Kafka. */
  datatype State = State(list: seq<string>, noBrokers: bool, passed: seq<string>)

  /** A notification: is it about children, of which path, and what lies under the broker path;
      `stale` is what the buffer held before. */
  datatype Notification = Notification(child: bool, path: string, listing: Option<seq<Node>>, stale: string)

  /** Does the client look at the brokers at all? */
  predicate Handled(noBrokers: bool, n: Notification) {
    noBrokers || (n.child && BROKER_PATH <= n.path)
  }

  /** It does while it waits for brokers, and whenever children change at or under the broker path. */
  lemma HandledExact(noBrokers: bool, n: Notification)
    ensures noBrokers ==> Handled(noBrokers, n)
    ensures !noBrokers && !n.child ==> !Handled(noBrokers, n)
    ensures !noBrokers && n.child ==> (Handled(noBrokers, n) <==> exists rest :: n.path == "/brokers/ids" + rest)
  {
    if "/brokers/ids" <= n.path {
      assert n.path == "/brokers/ids" + n.path[12..];
    }
  }

  /** The text that a notification makes the watcher print. */
  function TextOf(n: Notification): string
    requires Fits(n)
  {
    match n.listing
    case None => []
    case Some(nodes) => Listed(nodes, n.stale)
  }

  /** The hosts are C strings, and what is printed fits the buffer, the final NUL included. */
  predicate Fits(n: Notification) {
    && n.stale != []
    && match n.listing
       case None => true
       case Some(nodes) =>
         NulFree(nodes) && |Printed(nodes, |nodes|)| < |n.stale| && |Listed(nodes, n.stale)| < |n.stale|
  }

  /** What a connected client makes of a text: it passes the text on when a broker in it is new. */
  function Heard(s: State, text: string): State {
    var all := if text == [] then s.list else AddedAll(s.list, Fields(text, 0));
    if all == s.list then s else State(all, false, s.passed + [text])
  }

  lemma {:induction false} CStringEnds(b: string, p: nat)
    requires p <= |b| && p + |CString(b, p)| < |b|
    ensures var e := p + |CString(b, p)|; b[e] == NUL && b[p..e] == CString(b, p) && NUL !in b[p..e]
    decreases |b| - p
  {
    if b[p] != NUL {
      CStringEnds(b, p + 1);
      var e := p + |CString(b, p)|;
      assert b[p..e] == [b[p]] + b[p + 1..e];
    }
  }

  class Client {
    const servers: Servers
    var configured: bool  // a configuration with a topic is there
    var connected: bool   // the Kafka handle is there
    var noBrokers: bool
    var passed: seq<string>

    predicate Valid()
      reads this, servers, servers.list, servers.Slots()
    {
      servers.Valid()
    }

    function View(): State
      requires Valid()
      reads this, servers, servers.list, servers.Slots()
    {
      State(servers.Contents(), noBrokers, passed)
    }

    constructor ()
      ensures Valid() && fresh(servers) && servers.list == null && !configured && !connected
      ensures View() == State([], true, []) && servers.Tight()
    {
      configured, connected := false, false;
      servers := new Servers();
      noBrokers, passed := true, [];
    }

    /** Adds the brokers that a buffer lists, and passes the whole list to Kafka if one is new. */
    method AddBrokers(brokers: array<char>)
      requires Valid() && |CString(brokers[..], 0)| < brokers.Length
      modifies this`noBrokers, this`passed, brokers, servers, servers.list, servers.Slots()
      ensures Valid() && (old(servers.Tight()) ==> servers.Tight())
      ensures View() == if connected then Heard(old(View()), CString(old(brokers[..]), 0)) else old(View())
      ensures brokers[..] == old(brokers[..])
      ensures servers.list == old(servers.list) || fresh(servers.list)
      ensures servers.Slots() == old(servers.Slots()) || fresh(servers.Slots())
    {
      if brokers[0] != NUL && connected {
        var text := CString(brokers[..], 0);
        CStringEnds(brokers[..], 0);
        assert brokers[..|text|] == brokers[..][0..|text|] == text;
        var changed := AddServers(servers, brokers, |text|);
        if changed {
          passed := passed + [text];
          noBrokers := false;
        }
      }
    }

    /** Handles one notification. */
    method Watch(n: Notification)
      requires Valid() && Fits(n)
      modifies this`noBrokers, this`passed, servers, servers.list, servers.Slots()
      ensures Valid() && (old(servers.Tight()) ==> servers.Tight())
      ensures View() == if configured && connected &&
        Handled(old(noBrokers), n) then Heard(old(View()), TextOf(n)) else old(View())
      ensures servers.list == old(servers.list) || fresh(servers.list)
      ensures servers.Slots() == old(servers.Slots()) || fresh(servers.Slots())
    {
      if !configured { return; }
      if Handled(noBrokers, n) {
        var brokers := new char[|n.stale|](i requires 0 <= i < |n.stale| => n.stale[i]);
        brokers[0] := NUL;
        match n.listing {
          case None =>
            assert CString(brokers[..], 0) == [];
          case Some(nodes) =>
            ghost var before := brokers[..];
            Print(nodes, brokers);
            PrintedText(nodes, brokers[..], before, n.stale);
        }
        AddBrokers(brokers);
      }
    }
  }

  lemma PrintedText(nodes: seq<Node>, buffer: string, before: string, stale: string)
    requires NulFree(nodes) && |Printed(nodes, |nodes|)| < |buffer| == |before| == |stale|
    requires before[1..] == stale[1..]
    requires buffer[..|Printed(nodes, |nodes|)|] == Printed(nodes, |nodes|)
    requires !Trailing(nodes) ==> buffer[|Printed(nodes, |nodes|)|] == NUL
    requires Trailing(nodes) ==> buffer[|Printed(nodes, |nodes|)|..] == before[|Printed(nodes, |nodes|)|..]
    ensures CString(buffer, 0) == Listed(nodes, stale)
  {
    if Trailing(nodes) {
      PrintedJoins(nodes);
      var e := |Printed(nodes, |nodes|)|;
      assert before[e..] == before[1..][e - 1..] && stale[e..] == stale[1..][e - 1..];
    }
    PrintedReads(nodes, buffer, stale);
  }
}
