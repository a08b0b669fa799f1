/** Whole sequences of notifications about brokers. */
module WatchingRuns {
  import opened Brokers
  import opened StringList
  import opened Tokenizer
  import opened Watching

  predicate CommaFree(nodes: seq<Node>) {
    forall i :: 0 <= i < |nodes| && nodes[i].Broker? ==> COMMA !in nodes[i].host
  }

  /** A notification that is printed as the list of its brokers: the hosts are free of commas, and
      the last node is a broker or none is. */
  predicate Clean(n: Notification) {
    && Fits(n)
    && match n.listing
       case None => true
       case Some(nodes) => !Trailing(nodes) && CommaFree(nodes)
  }

  function BrokersOf(n: Notification): seq<string> {
    match n.listing
    case None => []
    case Some(nodes) => Texts(nodes)
  }

  function Next(s: State, n: Notification): State
    requires Fits(n)
  {
    if Handled(s.noBrokers, n) then Heard(s, TextOf(n)) else s
  }

  function After(run: seq<Notification>): State
    requires forall i :: 0 <= i < |run| ==> Fits(run[i])
  {
    if run == [] then State([], true, []) else Next(After(run[..|run| - 1]), run[|run| - 1])
  }

  /** Whether a configuration with a topic and the Kafka handle are there when a notification comes. */
  datatype Readiness = Readiness(configured: bool, connected: bool)

  /** The notifications that come to a client that is configured and connected. */
  function Seen(run: seq<Notification>, ready: seq<Readiness>): (seen: seq<Notification>)
    requires |ready| == |run|
    ensures forall i :: 0 <= i < |seen| ==> seen[i] in run
  {
    if run == [] then []
    else
      var n := |run| - 1;
      Seen(run[..n], ready[..n]) + if ready[n].configured && ready[n].connected then [run[n]] else []
  }

  lemma SeenNext(run: seq<Notification>, ready: seq<Readiness>, i: nat)
    requires i < |run| == |ready| && forall k :: 0 <= k < |run| ==> Fits(run[k])
    ensures After(Seen(run[..i + 1], ready[..i + 1])) ==
      if ready[i].configured && ready[i].connected then Next(After(Seen(run[..i], ready[..i])), run[i])
      else After(Seen(run[..i], ready[..i]))
  {
    var more, flags := run[..i + 1], ready[..i + 1];
    assert more[..i] == run[..i] && flags[..i] == ready[..i] && more[i] == run[i] && flags[i] == ready[i];
    var seen := Seen(run[..i], ready[..i]);
    if ready[i].configured && ready[i].connected {
      var all := seen + [run[i]];
      assert Seen(more, flags) == all && all[..|all| - 1] == seen && all[|all| - 1] == run[i];
    } else {
      assert Seen(more, flags) == seen;
    }
  }

  /** A client goes through exactly the states of `After` for those notifications at which it is
      configured and connected. */
  method Run(run: seq<Notification>, ready: seq<Readiness>) returns (client: Client)
    requires |ready| == |run| && forall i :: 0 <= i < |run| ==> Fits(run[i])
    ensures client.Valid() && client.servers.Tight()
    ensures client.View() == After(Seen(run, ready))
  {
    client := new Client();
    for i := 0 to |run|
      invariant client.Valid() && client.servers.Tight() && fresh(client) && fresh(client.servers)
      invariant client.View() == After(Seen(run[..i], ready[..i]))
      invariant client.servers.list != null ==> fresh(client.servers.list)
      invariant client.servers.Slots() != null ==> fresh(client.servers.Slots())
    {
      SeenNext(run, ready, i);
      client.configured, client.connected := ready[i].configured, ready[i].connected;
      client.Watch(run[i]);
    }
    assert run[..|run|] == run && ready[..|run|] == ready;
  }

  /** The brokers of the notifications that were handled, one after the other. */
  function AllHeard(run: seq<Notification>): seq<string>
    requires forall i :: 0 <= i < |run| ==> Fits(run[i])
  {
    if run == [] then []
    else
      var before, last := run[..|run| - 1], run[|run| - 1];
      AllHeard(before) + if Handled(After(before).noBrokers, last) then BrokersOf(last) else []
  }

  lemma {:induction false} TextsClean(nodes: seq<Node>)
    requires CommaFree(nodes)
    ensures forall j :: 0 <= j < |Texts(nodes)| ==> Texts(nodes)[j] != [] && COMMA !in Texts(nodes)[j]
  {
    if nodes != [] {
      TextsClean(nodes[..|nodes| - 1]);
    }
  }

  /** Splitting what is printed for a clean notification recovers its brokers. */
  lemma SplitRecovers(n: Notification)
    requires Clean(n)
    ensures TextOf(n) == JoinCommas(BrokersOf(n))
    ensures TextOf(n) == [] <==> BrokersOf(n) == []
    ensures BrokersOf(n) != [] ==> Fields(TextOf(n), 0) == BrokersOf(n)
  {
    match n.listing
    case None =>
    case Some(nodes) =>
      TextsClean(nodes);
      if Texts(nodes) != [] {
        SplitJoined(Texts(nodes));
      }
  }

  lemma FieldBefore(t: string, rest: string)
    requires COMMA !in t
    ensures Fields(t + [COMMA] + rest, 0) == [t] + Fields(rest, 0)
  {
    var s := t + [COMMA] + rest;
    FieldEndOf(t, s, 0);
    FieldsShift(t + [COMMA], rest, 0);
    assert s[0..|t|] == t;
  }

  /** Splitting after a comma goes on with what follows it. */
  lemma {:induction false} FieldsBefore(ts: seq<string>, rest: string)
    requires forall j :: 0 <= j < |ts| ==> COMMA !in ts[j]
    ensures Fields(JoinedWithCommas(ts) + rest, 0) == ts + Fields(rest, 0)
  {
    if ts == [] {
      assert JoinedWithCommas(ts) + rest == rest;
    } else {
      var n := |ts| - 1;
      var more := ts[n] + [COMMA] + rest;
      FieldsBefore(ts[..n], more);
      FieldBefore(ts[n], rest);
      assert JoinedWithCommas(ts) + rest == JoinedWithCommas(ts[..n]) + more;
      assert ts == ts[..n] + [ts[n]];
    }
  }

  /** When brokers without commas are listed, splitting the printed text recovers them exactly
      when the last node is one of them: a comma that trails makes one field more. */
  lemma SplitExact(n: Notification)
    requires Fits(n) && n.listing.Some? && CommaFree(n.listing.value) && BrokersOf(n) != []
    ensures Fields(TextOf(n), 0) == BrokersOf(n) <==> !Trailing(n.listing.value)
  {
    var nodes, ts := n.listing.value, BrokersOf(n);
    TextsClean(nodes);
    if Trailing(nodes) {
      var rest := CString(n.stale, |Printed(nodes, |nodes|)|);
      WithoutLastComma(ts);
      assert TextOf(n) == JoinedWithCommas(ts) + rest;
      FieldsBefore(ts, rest);
    } else {
      SplitRecovers(n);
    }
  }

  /** One notification, in terms of the brokers it brings. */
  lemma HeardBrokers(s: State, n: Notification)
    requires Clean(n)
    ensures var all := AddedAll(s.list, BrokersOf(n));
      Heard(s, TextOf(n)) == if all == s.list then s else State(all, false, s.passed + [TextOf(n)])
  {
    SplitRecovers(n);
  }

  predicate AllClean(run: seq<Notification>) {
    forall i :: 0 <= i < |run| ==> Clean(run[i])
  }

  /** Over any sequence of clean notifications after initialization, the list holds each broker
      that was heard of once, in order of first appearance. */
  lemma {:induction false} EachBrokerOnce(run: seq<Notification>)
    requires AllClean(run)
    ensures var list := After(run).list;
      list == Firsts(AllHeard(run), |AllHeard(run)|) && Distinct(list) && forall t :: t in list <==> t in AllHeard(run)
  {
    FirstsHold(AllHeard(run), |AllHeard(run)|);
    if run != [] {
      var before, last := run[..|run| - 1], run[|run| - 1];
      EachBrokerOnce(before);
      if Handled(After(before).noBrokers, last) {
        HeardBrokers(After(before), last);
        AddedFirsts(AllHeard(before), BrokersOf(last));
      } else {
        assert AllHeard(run) == AllHeard(before);
      }
    }
  }

  /** A list is passed to Kafka exactly when it comes with a broker not heard of before, and the
      client waits for brokers exactly as long as nothing has been passed. */
  lemma {:induction false} PassedExact(run: seq<Notification>)
    requires AllClean(run)
    ensures After(run).noBrokers <==> After(run).passed == []
    ensures run != [] ==>
      var before, last := run[..|run| - 1], run[|run| - 1];
      var unseen := Handled(After(before).noBrokers, last) &&
        exists t :: t in BrokersOf(last) && t !in AllHeard(before);
      After(run).passed == After(before).passed + if unseen then [JoinCommas(BrokersOf(last))] else []
  {
    if run != [] {
      var before, last := run[..|run| - 1], run[|run| - 1];
      PassedExact(before);
      EachBrokerOnce(before);
      HeardBrokers(After(before), last);
      SplitRecovers(last);
      AddedFirsts(AllHeard(before), BrokersOf(last));
    }
  }
}
