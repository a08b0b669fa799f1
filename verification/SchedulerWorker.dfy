/** The effects of the worker's steps on the shared state, one field at a time. */
module SchedulerWorker {
  import opened Attempts
  import opened Groups
  import opened Scheduler
  import opened SchedulerInvariant

  // ----- recording results -----

  /** Recording a result disturbs nothing that was established from earlier ones. */
  lemma Record(results: map<Cmd, Outcome>, c: Cmd, o: Outcome, pool: set<Cmd>, reg: Regs, m: MainPc,
               groups: set<GroupId>, done: bool, waitFor: set<Cmd>)
    requires c !in results
    requires NeedsMet(pool, reg, results) && MainOk(m, groups, results, done, waitFor)
    ensures NeedsMet(pool, reg, results[c := o]) && MainOk(m, groups, results[c := o], done, waitFor)
  {
  }

  lemma CollectResults(t: Table, pool: map<Cmd, Task>, results: map<Cmd, Outcome>, depsSaved: set<Cmd>, reg: Regs,
                       placed: set<Cmd>, settled: set<Cmd>, next: nat, launched: Option<(GroupId, Cmd)>, k: Marks,
                       c: Cmd)
    requires Results(t, pool, results, depsSaved, reg, placed, settled, next, launched, k)
    requires c in placed && c !in results && c in pool && !pool[c].Active? && k.inFlight.None? && k.unflagged.None?
    ensures pool[c].Succeeded? ==>
      Results(t, pool, results[c := Saved], depsSaved + {c}, reg, placed, settled, next, launched,
              k.(inFlight := Some(c)))
    ensures pool[c].Errored? ==>
      Results(t, pool, results[c := Failed], depsSaved, reg, placed, settled, next, launched,
              k.(inFlight := Some(c), unflagged := Some(c)))
  {
    if pool[c].Succeeded? {
      assert ResultsOk(results[c := Saved], placed, depsSaved + {c}, pool, k.skipped);
    } else {
      assert ResultsOk(results[c := Failed], placed, depsSaved, pool, k.skipped);
    }
  }

  lemma Collect(s: State, c: Cmd)
    requires Core(s, NO_MARKS) && c in s.placed && c !in s.results && c in s.pool && !s.pool[c].Active?
    ensures s.pool[c].Succeeded? ==>
      Core(s.(results := s.results[c := Saved], depsSaved := s.depsSaved + {c}), NO_MARKS.(inFlight := Some(c)))
    ensures s.pool[c].Errored? ==>
      Core(s.(results := s.results[c := Failed]), NO_MARKS.(inFlight := Some(c), unflagged := Some(c)))
  {
    CollectResults(s.table, s.pool, s.results, s.depsSaved, s.reg, s.placed, s.settled, s.next, Launched(s.main),
                   NO_MARKS, c);
    Record(s.results, c, if s.pool[c].Succeeded? then Saved else Failed, s.pool.Keys, s.reg, s.main, s.table.Keys,
           s.done, s.waitFor);
  }

  // ----- flagging a group -----

  /** Changing flags or counters leaves the lists alone. */
  lemma SameRolls(t: Table, g: GroupId, v: Value)
    requires g in t && v.items == t[g].items
    ensures RollsOf(t[g := v]) == RollsOf(t) && t[g := v].Keys == t.Keys
  {
    assert t[g := v].Keys == t.Keys;
  }

  lemma FlagTables(t: Table, reg: Regs, placed: set<Cmd>, settled: set<Cmd>, next: nat, m: MainPc, waitFor: set<Cmd>,
                   k: Marks, l: Marks, g: GroupId)
    requires Tables(t, reg, placed, settled, next, m, waitFor, k) && g.User? && g in t
    requires l.leaver == k.leaver && l.extra == k.extra
    ensures Tables(t[g := t[g].(ok := false)], reg, placed, settled, next, m, waitFor, l)
    ensures t[g := t[g].(ok := false)].Keys == t.Keys
  {
    SameRolls(t, g, t[g].(ok := false));
  }

  lemma FlagResults(t: Table, pool: map<Cmd, Task>, results: map<Cmd, Outcome>, depsSaved: set<Cmd>, reg: Regs,
                    placed: set<Cmd>, settled: set<Cmd>, next: nat, launched: Option<(GroupId, Cmd)>, k: Marks,
                    g: GroupId)
    requires Results(t, pool, results, depsSaved, reg, placed, settled, next, launched, k) && g.User? && g in t
    requires k.unflagged.Some? ==> k.unflagged.value in reg && reg[k.unflagged.value].group == g
    ensures Results(t[g := t[g].(ok := false)], pool, results, depsSaved, reg, placed, settled, next, launched,
                    k.(unflagged := None))
  {
  }

  lemma Flag(s: State, g: GroupId, k: Marks)
    requires Core(s, k) && g.User? && g in s.table
    requires k.unflagged.Some? ==> k.unflagged.value in s.reg && s.reg[k.unflagged.value].group == g
    ensures Core(s.(table := s.table[g := s.table[g].(ok := false)]), k.(unflagged := None))
  {
    FlagTables(s.table, s.reg, s.placed, s.settled, s.next, s.main, s.waitFor, k, k.(unflagged := None), g);
    FlagResults(s.table, s.pool, s.results, s.depsSaved, s.reg, s.placed, s.settled, s.next, Launched(s.main), k, g);
  }

  // ----- uncounting a command whose result is recorded -----

  lemma UncountCounts(t: Table, reg: Regs, placed: set<Cmd>, settled: set<Cmd>, g: GroupId, c: Cmd, extra: int)
    requires g.User? && g in t && c in reg && reg[c].group == g && c !in settled
    requires Counts(t, reg, placed, settled, extra)
    ensures t[g].count > 0
    ensures Counts(t[g := t[g].(count := t[g].count - 1)], reg, placed, settled + {c}, extra)
  {
    assert Open(reg, settled, g) == Open(reg, settled + {c}, g) + {c};
    forall h | h in t && h.User? && h != g ensures Open(reg, settled + {c}, h) == Open(reg, settled, h) {}
  }

  lemma UncountTables(t: Table, reg: Regs, placed: set<Cmd>, settled: set<Cmd>, next: nat, m: MainPc, waitFor: set<Cmd>,
                      k: Marks, g: GroupId, c: Cmd)
    requires Tables(t, reg, placed, settled, next, m, waitFor, k)
    requires g.User? && g in t && c in reg && reg[c].group == g && c !in settled
    ensures t[g].count > 0
    ensures Tables(t[g := t[g].(count := t[g].count - 1)], reg, placed, settled + {c}, next, m, waitFor,
                   k.(inFlight := None))
  {
    UncountCounts(t, reg, placed, settled, g, c, k.extra);
    SameRolls(t, g, t[g].(count := t[g].count - 1));
  }

  lemma UncountResults(t: Table, pool: map<Cmd, Task>, results: map<Cmd, Outcome>, depsSaved: set<Cmd>, reg: Regs,
                       placed: set<Cmd>, settled: set<Cmd>, next: nat, launched: Option<(GroupId, Cmd)>, k: Marks,
                       g: GroupId, c: Cmd, n: int)
    requires Results(t, pool, results, depsSaved, reg, placed, settled, next, launched, k)
    requires g in t && c in results && k.inFlight == Some(c)
    ensures Results(t[g := t[g].(count := n)], pool, results, depsSaved, reg, placed, settled + {c}, next, launched,
                    k.(inFlight := None))
  {
  }

  function Uncounted(s: State, g: GroupId, c: Cmd): State
    requires g in s.table
  {
    s.(table := s.table[g := s.table[g].(count := s.table[g].count - 1)], settled := s.settled + {c})
  }

  lemma Uncount(s: State, k: Marks, g: GroupId, c: Cmd)
    requires Core(s, k) && k.inFlight == Some(c) && k.unflagged.None?
    requires g.User? && g in s.table && Unsettled(s.reg, s.settled, s.results, g, c)
    ensures s.table[g].count > 0
    ensures Core(Uncounted(s, g, c), k.(inFlight := None))
  {
    UncountTables(s.table, s.reg, s.placed, s.settled, s.next, s.main, s.waitFor, k, g, c);
    UncountResults(s.table, s.pool, s.results, s.depsSaved, s.reg, s.placed, s.settled, s.next, Launched(s.main), k, g,
                   c, s.table[g].count - 1);
    SameRolls(s.table, g, s.table[g].(count := s.table[g].count - 1));
  }

  // ----- dispatching -----

  lemma StartResults(t: Table, pool: map<Cmd, Task>, results: map<Cmd, Outcome>, depsSaved: set<Cmd>, reg: Regs,
                     placed: set<Cmd>, settled: set<Cmd>, next: nat, launched: Option<(GroupId, Cmd)>, c: Cmd)
    requires Results(t, pool, results, depsSaved, reg, placed, settled, next, launched, NO_MARKS)
    requires c in reg && c < next && c !in placed && AllSaved(results, reg[c].need)
    ensures c !in pool
    ensures Results(t, pool[c := Active], results, depsSaved, reg, placed, settled, next, launched,
                    NO_MARKS.(dispatched := Some(c)))
  {
    assert c !in results;
    assert pool[c := Active].Keys == pool.Keys + {c};
    assert ResultsOk(results, placed, depsSaved, pool[c := Active], None);
  }

  lemma Start(s: State, a: After)
    requires Core(s, NO_MARKS) && Blocked(a) in Inside(s) && a.action.Todo?
    requires AllSaved(s.results, NeedOf(s.reg, s.waitFor, a))
    ensures a.id !in s.pool
    ensures Core(s.(pool := s.pool[a.id := Active]), NO_MARKS.(dispatched := Some(a.id)))
  {
    assert a.id in s.reg && a.id !in s.placed;
    StartResults(s.table, s.pool, s.results, s.depsSaved, s.reg, s.placed, s.settled, s.next, Launched(s.main), a.id);
  }

  // Placing a command moves it between the two counters of its group.
  lemma PlaceCounts(t: Table, reg: Regs, placed: set<Cmd>, settled: set<Cmd>, g: GroupId, c: Cmd, extra: int, v: Value)
    requires g.User? && g in t && c in reg && reg[c].group == g && c !in placed
    requires Counts(t, reg, placed, settled, extra)
    requires v.count == t[g].count && v.countInFalse == t[g].countInFalse - 1
    ensures t[g].countInFalse > 0
    ensures Counts(t[g := v], reg, placed + {c}, settled, extra)
  {
    assert Unplaced(reg, placed, g) == Unplaced(reg, placed + {c}, g) + {c};
    forall h | h in t && h.User? && h != g ensures Unplaced(reg, placed + {c}, h) == Unplaced(reg, placed, h) {}
  }

  // Appending a command to the list of its group.
  lemma PlaceRolls(rolls: Rolls, reg: Regs, placed: set<Cmd>, g: GroupId, c: Cmd)
    requires g in rolls && c in reg && reg[c].group == g && c !in placed
    requires UserRolls(rolls, reg, placed) && PlacedOk(rolls, reg, placed)
    ensures UserRolls(rolls[g := rolls[g] + [Item.Running(c)]], reg, placed + {c})
    ensures PlacedOk(rolls[g := rolls[g] + [Item.Running(c)]], reg, placed + {c})
  {
    var items := rolls[g] + [Item.Running(c)];
    assert items[|rolls[g]|] == Item.Running(c);
    forall d | d in placed && reg[d].group == g ensures Item.Running(d) in items {
      var i :| 0 <= i < |rolls[g]| && rolls[g][i] == Item.Running(d);
      assert items[i] == Item.Running(d);
    }
  }

  lemma PlaceEntries(inside: seq<Item>, reg: Regs, placed: set<Cmd>, next: nat, waiter: Option<After>, a: After,
                     incoming: Option<After>)
    requires a.action.Todo? && Blocked(a) in inside
    requires EntriesOk(inside, reg, placed, next, waiter, None) && BlockedOk(inside, reg, placed, incoming)
    ensures EntriesOk(inside, reg, placed + {a.id}, next, waiter, Some(a))
    ensures BlockedOk(inside, reg, placed + {a.id}, incoming)
  {
    var i :| 0 <= i < |inside| && inside[i] == Blocked(a);
  }

  /** What `AddForBlocked` leaves when its counter is positive. */
  function Joined(v: Value, c: Cmd): Value {
    v.(items := v.items + [Item.Running(c)], countInFalse := v.countInFalse - 1)
  }

  lemma PlaceTables(t: Table, reg: Regs, placed: set<Cmd>, settled: set<Cmd>, next: nat, m: MainPc, waitFor: set<Cmd>,
                    k: Marks, a: After, g: GroupId)
    requires Tables(t, reg, placed, settled, next, m, waitFor, k)
    requires Blocked(a) in t[Internal].items && a.action == Todo(g) && a.id !in placed && k.leaver.None?
    ensures a.id in reg && g.User? && g in t && t[g].countInFalse > 0
    ensures Tables(t[g := Joined(t[g], a.id)], reg, placed + {a.id}, settled, next, m, waitFor, k.(leaver := Some(a)))
    ensures t[g := Joined(t[g], a.id)].Keys == t.Keys
  {
    assert a.id in reg && a == AfterOf(reg, a.id);
    var v := Joined(t[g], a.id);
    PlaceCounts(t, reg, placed, settled, g, a.id, k.extra, v);
    PlaceRolls(RollsOf(t), reg, placed, g, a.id);
    PlaceEntries(t[Internal].items, reg, placed, next, Awaited(m), a, BeingBlocked(m));
    assert RollsOf(t[g := v]) == RollsOf(t)[g := v.items];
    assert t[g := v].Keys == t.Keys;
  }

  lemma PlaceResults(t: Table, pool: map<Cmd, Task>, results: map<Cmd, Outcome>, depsSaved: set<Cmd>, reg: Regs,
                     placed: set<Cmd>, settled: set<Cmd>, next: nat, launched: Option<(GroupId, Cmd)>, k: Marks,
                     k': Marks, g: GroupId, c: Cmd)
    requires Results(t, pool, results, depsSaved, reg, placed, settled, next, launched, k)
    requires g in t && c in reg && c !in placed && k.skipped.None? &&
      (k'.skipped == Some(c) || (k'.skipped.None? && c in pool))
    requires (k.dispatched == Some(c) || k.dispatched.None?) && k'.dispatched.None? && k'.inFlight == k.inFlight &&
      k'.unflagged == k.unflagged
    ensures Results(t[g := Joined(t[g], c)], pool, results, depsSaved, reg, placed + {c}, settled, next, launched, k')
  {
  }

  function PlacedState(s: State, g: GroupId, c: Cmd): State
    requires g in s.table
  {
    s.(table := s.table[g := Joined(s.table[g], c)], placed := s.placed + {c})
  }

  /** The dispatched command joins its group's list. */
  lemma PlaceDispatched(s: State, a: After, g: GroupId)
    requires Core(s, NO_MARKS.(dispatched := Some(a.id)))
    requires Blocked(a) in Inside(s) && a.action == Todo(g) && a.id !in s.placed && a.id in s.pool
    ensures g.User? && g in s.table && s.table[g].countInFalse > 0
    ensures Core(PlacedState(s, g, a.id), NO_MARKS.(leaver := Some(a)))
  {
    var k := NO_MARKS.(dispatched := Some(a.id));
    PlaceTables(s.table, s.reg, s.placed, s.settled, s.next, s.main, s.waitFor, k, a, g);
    PlaceResults(s.table, s.pool, s.results, s.depsSaved, s.reg, s.placed, s.settled, s.next, Launched(s.main), k,
                 NO_MARKS.(leaver := Some(a)), g, a.id);
  }

  /** The command that will not run joins its group's list. */
  lemma PlaceSkipped(s: State, a: After, g: GroupId)
    requires Core(s, NO_MARKS)
    requires Blocked(a) in Inside(s) && a.action == Todo(g) && a.id !in s.placed
    ensures g.User? && g in s.table && s.table[g].countInFalse > 0
    ensures Core(PlacedState(s, g, a.id), NO_MARKS.(leaver := Some(a), skipped := Some(a.id)))
  {
    PlaceTables(s.table, s.reg, s.placed, s.settled, s.next, s.main, s.waitFor, NO_MARKS, a, g);
    PlaceResults(s.table, s.pool, s.results, s.depsSaved, s.reg, s.placed, s.settled, s.next, Launched(s.main),
                 NO_MARKS,
                 NO_MARKS.(leaver := Some(a), skipped := Some(a.id)), g, a.id);
  }

  /** Marking it as not run, and its group as failed. */
  lemma MarkResults(t: Table, pool: map<Cmd, Task>, results: map<Cmd, Outcome>, depsSaved: set<Cmd>, reg: Regs,
                    placed: set<Cmd>, settled: set<Cmd>, next: nat, launched: Option<(GroupId, Cmd)>, a: After,
                    g: GroupId)
    requires Results(t, pool, results, depsSaved, reg, placed, settled, next, launched,
                     NO_MARKS.(leaver := Some(a), skipped := Some(a.id)))
    requires a.id in placed && a.id !in pool && a.id !in results && a.id in reg && reg[a.id].group == g && g.User? &&
      g in t
    requires NeedsMet(pool.Keys, reg, results[a.id := NotRun])
    ensures Results(t[g := t[g].(ok := false)], pool, results[a.id := NotRun], depsSaved, reg, placed, settled, next,
                    launched,
                    NO_MARKS.(leaver := Some(a), inFlight := Some(a.id)))
  {
    assert ResultsOk(results[a.id := NotRun], placed, depsSaved, pool, None);
  }

  lemma Mark(s: State, a: After, g: GroupId)
    requires Core(s, NO_MARKS.(leaver := Some(a), skipped := Some(a.id)))
    requires a.id in s.placed && a.id !in s.pool && a.id !in s.results && a.id in s.reg && s.reg[a.id].group == g
    requires g.User? && g in s.table
    ensures Core(s.(table := s.table[g := s.table[g].(ok := false)], results := s.results[a.id := NotRun]),
                 NO_MARKS.(leaver := Some(a), inFlight := Some(a.id)))
  {
    var k, l := NO_MARKS.(leaver := Some(a), skipped := Some(a.id)),
      NO_MARKS.(leaver := Some(a), inFlight := Some(a.id));
    FlagTables(s.table, s.reg, s.placed, s.settled, s.next, s.main, s.waitFor, k, l, g);
    Record(s.results, a.id, NotRun, s.pool.Keys, s.reg, s.main, s.table.Keys, s.done, s.waitFor);
    MarkResults(s.table, s.pool, s.results, s.depsSaved, s.reg, s.placed, s.settled, s.next, Launched(s.main), a, g);
  }

  // ----- waking the main thread -----

  lemma Lock(s: State)
    requires Core(s, NO_MARKS) && s.lock.Free?
    ensures Core(s.(lock := ByWorker), NO_MARKS.(notifying := true))
  {
  }

  lemma Notify(s: State, a: After, noError: bool)
    requires Core(s, NO_MARKS.(notifying := true)) && s.main == Waiting(a)
    requires noError ==> AllSaved(s.results, s.waitFor)
    ensures Core(s.(done := noError, lock := Free, main := Notified(a)), NO_MARKS.(leaver := Some(a)))
  {
  }

  // ----- taking an entry out of the internal group -----

  function Dropped(inside: seq<Item>, k: nat): (rest: seq<Item>)
    requires k < |inside|
    ensures |rest| == |inside| - 1 && forall i :: 0 <= i < |rest| ==> rest[i] == inside[if i < k then i else i + 1]
  {
    inside[..k] + inside[k + 1..]
  }

  lemma StillInside(inside: seq<Item>, a: After, k: nat, b: After)
    requires k < |inside| && inside[k] == Blocked(a) && Blocked(b) in inside && b != a
    ensures Blocked(b) in Dropped(inside, k)
  {
    var i :| 0 <= i < |inside| && inside[i] == Blocked(b);
    assert Dropped(inside, k)[if i < k then i else i - 1] == Blocked(b);
  }

  lemma RemoveEntries(inside: seq<Item>, a: After, k: nat, reg: Regs, placed: set<Cmd>, next: nat,
                      waiter: Option<After>)
    requires k < |inside| && inside[k] == Blocked(a) && EntriesOk(inside, reg, placed, next, waiter, Some(a))
    ensures EntriesOk(Dropped(inside, k), reg, placed, next, waiter, None)
  {
    var rest := Dropped(inside, k);
    forall i | 0 <= i < |rest| ensures rest[i].after != a {
      assert inside[if i < k then i else i + 1].after.id != inside[k].after.id;
    }
  }

  lemma RemoveBlocked(inside: seq<Item>, a: After, k: nat, reg: Regs, placed: set<Cmd>, incoming: Option<After>)
    requires k < |inside| && inside[k] == Blocked(a) && BlockedOk(inside, reg, placed, incoming)
    requires a.action.Todo? ==> a.id in placed
    ensures BlockedOk(Dropped(inside, k), reg, placed, incoming)
  {
    forall c | c in reg && c !in placed && Blocked(AfterOf(reg, c)) in inside
      ensures Blocked(AfterOf(reg, c)) in Dropped(inside, k) {
      StillInside(inside, a, k, AfterOf(reg, c));
    }
  }

  lemma RemoveRolls(rolls: Rolls, reg: Regs, placed: set<Cmd>, groups: set<GroupId>, next: nat, rest: seq<Item>)
    requires UserRolls(rolls, reg, placed) && PlacedOk(rolls, reg, placed) && RegsOk(groups, reg, next)
    ensures UserRolls(rolls[Internal := rest], reg, placed) && PlacedOk(rolls[Internal := rest], reg, placed)
  {
  }

  function Without(t: Table, k: nat): Table
    requires Internal in t && k < |t[Internal].items|
  {
    t[Internal := t[Internal].(items := Dropped(t[Internal].items, k))]
  }

  lemma RemoveLists(t: Table, u: Table, reg: Regs, placed: set<Cmd>, settled: set<Cmd>, next: nat, k: nat)
    requires Internal in t && k < |t[Internal].items| && u == Without(t, k)
    requires UserRolls(RollsOf(t), reg, placed) && RegsOk(t.Keys, reg, next) && PlacedOk(RollsOf(t), reg, placed)
    requires Counts(t, reg, placed, settled, 0)
    ensures u.Keys == t.Keys && Internal in u && u[Internal].items == Dropped(t[Internal].items, k)
    ensures UserRolls(RollsOf(u), reg, placed) && PlacedOk(RollsOf(u), reg, placed)
    ensures Counts(u, reg, placed, settled, 1)
  {
    RemoveRolls(RollsOf(t), reg, placed, t.Keys, next, Dropped(t[Internal].items, k));
    assert RollsOf(u) == RollsOf(t)[Internal := Dropped(t[Internal].items, k)];
  }

  lemma RemoveWaiter(inside: seq<Item>, a: After, k: nat, groups: set<GroupId>, reg: Regs, placed: set<Cmd>, next: nat,
                     m: MainPc, waitFor: set<Cmd>)
    requires k < |inside| && inside[k] == Blocked(a) && Awaited(m) != Some(a)
    requires WaiterOk(Awaited(m), inside, groups, reg, waitFor) && LaunchOk(Launched(m), inside, reg, placed, next)
    ensures WaiterOk(Awaited(m), Dropped(inside, k), groups, reg, waitFor) &&
      LaunchOk(Launched(m), Dropped(inside, k), reg, placed, next)
  {
    if Awaited(m).Some? {
      StillInside(inside, a, k, Awaited(m).value);
    }
  }

  lemma RemoveTables(t: Table, reg: Regs, placed: set<Cmd>, settled: set<Cmd>, next: nat, m: MainPc, waitFor: set<Cmd>,
                     a: After, k: nat)
    requires Tables(t, reg, placed, settled, next, m, waitFor, NO_MARKS.(leaver := Some(a)))
    requires k < |t[Internal].items| && t[Internal].items[k] == Blocked(a)
    requires a.action.Todo? ==> a.id in placed
    requires Awaited(m) != Some(a)
    ensures Tables(Without(t, k), reg, placed, settled, next, m, waitFor, NO_MARKS.(extra := 1))
    ensures Without(t, k).Keys == t.Keys
  {
    var inside := t[Internal].items;
    RemoveEntries(inside, a, k, reg, placed, next, Awaited(m));
    RemoveBlocked(inside, a, k, reg, placed, BeingBlocked(m));
    RemoveWaiter(inside, a, k, t.Keys, reg, placed, next, m, waitFor);
    RemoveLists(t, Without(t, k), reg, placed, settled, next, k);
  }

  /** The awaited entry is no blocked command. */
  lemma NotAwaited(inside: seq<Item>, a: After, groups: set<GroupId>, reg: Regs, m: MainPc, waitFor: set<Cmd>)
    requires WaiterOk(Awaited(m), inside, groups, reg, waitFor) && (a.action.Wake? ==> Awaited(m) != Some(a))
    ensures Awaited(m) != Some(a)
  {
  }

  lemma Remove(s: State, a: After, k: nat)
    requires Core(s, NO_MARKS.(leaver := Some(a))) && k < |Inside(s)| && Inside(s)[k] == Blocked(a)
    requires a.action.Todo? ==> a.id in s.placed
    requires a.action.Wake? ==> Awaited(s.main) != Some(a)
    ensures Core(s.(table := Without(s.table, k)), NO_MARKS.(extra := 1))
  {
    NotAwaited(Inside(s), a, s.table.Keys, s.reg, s.main, s.waitFor);
    RemoveTables(s.table, s.reg, s.placed, s.settled, s.next, s.main, s.waitFor, a, k);
  }

  lemma UncountEntry(s: State)
    requires Core(s, NO_MARKS.(extra := 1))
    ensures s.table[Internal].count > 0
    ensures Core(s.(table := s.table[Internal := s.table[Internal].(count := s.table[Internal].count - 1)]), NO_MARKS)
  {
    SameRolls(s.table, Internal, s.table[Internal].(count := s.table[Internal].count - 1));
  }
}
