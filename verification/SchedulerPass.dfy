/** The worker's look at one waiting entry, on the shared object and as the steps of the system. */
module SchedulerPass {
  import opened Groups
  import opened Scheduler
  import opened SharedGroups

  predicate Reading(w: WorkerPc) {
    w.Sum? || w.Oks?
  }

  /** Where the worker is once it has read the counts and the flags of an entry, if no other
      thread changes the table in the meantime. */
  function Read(t: Table, w: WorkerPc): WorkerPc
    requires Reading(w)
    decreases w.Sum?, |w.left|
  {
    var next := NextRead(t, w);
    if Reading(next) then Read(t, next) else next
  }

  /** The groups are read in order, up to one that was not registered or has failed. */
  predicate Unregistered(t: Table, ids: seq<GroupId>) {
    ids != [] && (ids[0] !in t || (t[ids[0]].ok && Unregistered(t, ids[1..])))
  }

  predicate AllOk(t: Table, ids: seq<GroupId>) {
    forall i :: 0 <= i < |ids| ==> ids[i] in t && t[ids[i]].ok
  }

  lemma {:induction false} UnregisteredExact(t: Table, ids: seq<GroupId>)
    ensures Unregistered(t, ids) <==> exists i :: 0 <= i < |ids| && ids[i] !in t && AllOk(t, ids[..i])
  {
    if ids != [] {
      UnregisteredExact(t, ids[1..]);
      if i :| 0 <= i < |ids| && ids[i] !in t && AllOk(t, ids[..i]) {
        if i > 0 {
          assert ids[0] == ids[..i][0] && ids[1..][i - 1] == ids[i] && ids[1..][..i - 1] == ids[..i][1..];
          assert AllOk(t, ids[1..][..i - 1]);
        }
      }
      if Unregistered(t, ids) {
        if ids[0] !in t {
          assert AllOk(t, ids[..0]);
        } else {
          var i :| 0 <= i < |ids[1..]| && ids[1..][i] !in t && AllOk(t, ids[1..][..i]);
          assert ids[..i + 1] == [ids[0]] + ids[1..][..i] && ids[i + 1] == ids[1..][i];
          assert AllOk(t, ids[..i + 1]);
        }
      }
    }
  }

  function Counted(t: Table, ids: seq<GroupId>): int {
    if ids == [] then 0 else GetCount(t, ids[0]) + Counted(t, ids[1..])
  }

  lemma {:induction false} ReadCounts(t: Table, a: After, left: seq<GroupId>, sum: int, todo: seq<Item>)
    ensures Read(t, Sum(a, left, sum, todo)) == Read(t, Oks(a, a.afters, sum + Counted(t, left), todo))
  {
    if left != [] {
      ReadCounts(t, a, left[1..], sum + GetCount(t, left[0]), todo);
    }
  }

  lemma {:induction false} ReadFlags(t: Table, a: After, left: seq<GroupId>, sum: int, todo: seq<Item>)
    ensures Read(t, Oks(a, left, sum, todo)) ==
      if Unregistered(t, left) then Crashed else Decide(a, sum, AllOk(t, left), todo)
  {
    if left != [] && left[0] in t && t[left[0]].ok {
      ReadFlags(t, a, left[1..], sum, todo);
      assert AllOk(t, left[1..]) <==> AllOk(t, left) by {
        assert forall i :: 0 <= i < |left[1..]| ==> left[1..][i] == left[i + 1];
        assert forall i :: 0 < i < |left| ==> left[i] == left[1..][i - 1];
      }
    }
  }

  /** What of the groups that an entry waits for is left to do, the entry itself not counted. */
  function LeftToDo(t: Table, a: After): int {
    Counted(t, a.afters) - if Internal in a.afters then 1 else 0
  }

  /** A command goes to the pool exactly when nothing is left to do and no flag is down, is skipped
      exactly when nothing is left to do and one is, and the main thread is woken with that verdict;
      otherwise the worker goes on to the next entry. */
  predicate Decided(t: Table, a: After, todo: seq<Item>, w: WorkerPc) {
    && (w.Starting? <==> LeftToDo(t, a) == 0 && a.action.Todo? && AllOk(t, a.afters))
    && (w.Skipping? <==> LeftToDo(t, a) == 0 && a.action.Todo? && !AllOk(t, a.afters))
    && (w.Locking? <==> LeftToDo(t, a) == 0 && a.action.Wake?) && (w.Locking? ==> w.noError == AllOk(t, a.afters))
    && (w.Scan? <==> LeftToDo(t, a) != 0)
    && (w.Starting? || w.Skipping? || w.Locking? ==> w.a == a) && w.todo == todo
  }

  /** The worker crashes on an entry exactly when one of the groups it waits for was never
      registered and those named before it have not failed; otherwise it decides. */
  lemma CrashExact(t: Table, a: After, todo: seq<Item>)
    ensures var w := Read(t, Sum(a, a.afters, 0, todo));
      && (w.Crashed? <==> exists i :: 0 <= i < |a.afters| && a.afters[i] !in t && AllOk(t, a.afters[..i]))
      && (!w.Crashed? ==> Decided(t, a, todo, w))
  {
    ReadCounts(t, a, a.afters, 0, todo);
    ReadFlags(t, a, a.afters, Counted(t, a.afters), todo);
    UnregisteredExact(t, a.afters);
  }

  /** The same look at the shared object: the sum of the counts, then the flags up to the first
      that is not set. */
  method LookAt(table: GroupTable, a: After, todo: seq<Item>) returns (next: WorkerPc)
    ensures next == Read(table.groups, Sum(a, a.afters, 0, todo))
    ensures next.Crashed? <==>
      exists i :: 0 <= i < |a.afters| && a.afters[i] !in table.groups && AllOk(table.groups, a.afters[..i])
    ensures !next.Crashed? ==> Decided(table.groups, a, todo, next)
  {
    CrashExact(table.groups, a, todo);
    next := ReadThrough(table, a, todo);
  }

  method ReadThrough(table: GroupTable, a: After, todo: seq<Item>) returns (next: WorkerPc)
    ensures next == Read(table.groups, Sum(a, a.afters, 0, todo))
  {
    var sum, i := 0, 0;
    while i < |a.afters|
      invariant 0 <= i <= |a.afters|
      invariant Read(table.groups, Sum(a, a.afters, 0, todo)) == Read(table.groups, Sum(a, a.afters[i..], sum, todo))
    {
      var count := table.GetCount(a.afters[i]);
      assert a.afters[i..][0] == a.afters[i] && a.afters[i..][1..] == a.afters[i + 1..];
      sum, i := sum + count, i + 1;
    }
    next := ReadFlagsThrough(table, a, sum, todo);
  }

  method ReadFlagsThrough(table: GroupTable, a: After, sum: int, todo: seq<Item>) returns (next: WorkerPc)
    ensures next == Read(table.groups, Oks(a, a.afters, sum, todo))
  {
    var noError := true;
    var i := 0;
    while i < |a.afters| && noError
      invariant 0 <= i <= |a.afters|
      invariant Read(table.groups, Oks(a, a.afters, sum, todo)) ==
        if noError then Read(table.groups, Oks(a, a.afters[i..], sum, todo)) else Decide(a, sum, false, todo)
    {
      var ok := table.GetOk(a.afters[i]);
      assert a.afters[i..][0] == a.afters[i] && a.afters[i..][1..] == a.afters[i + 1..];
      if ok.Raised? { return Crashed; }
      noError, i := ok.value, i + 1;
    }
    return Decide(a, sum, noError, todo);
  }
}
