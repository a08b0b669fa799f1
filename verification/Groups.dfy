/** The table shared by the two threads of the parallel builder: for each group of
    commands, the items in it, how many have not completed, and whether all succeeded. */
module Groups {

  import opened Attempts

  /** Group names. `Internal` is the key `False`, under which waiting entries are kept. */
  datatype GroupId = Internal | User(name: string)

  /** Commands are identified by a serial number, one per call that reaches the pool. */
  type Cmd = nat

  datatype Action = Todo(group: GroupId) | Wake

  /** Something waiting for groups to complete: a blocked command or the main thread. */
  datatype After = After(id: nat, afters: seq<GroupId>, action: Action)

  datatype Item = Running(cmd: Cmd) | Blocked(after: After)

  datatype Value = Value(count: int, countInFalse: int, items: seq<Item>, ok: bool)

  type Table = map<GroupId, Value>

  const EMPTY_VALUE := Value(0, 0, [], true)

  function Ensure(t: Table, id: GroupId): Table {
    if id in t then t else t[id := EMPTY_VALUE]
  }

  function Add(t: Table, id: GroupId, item: Item): Table {
    var u := Ensure(t, id);
    u[id := u[id].(items := u[id].items + [item], count := u[id].count + 1)]
  }

  function IncCountForBlocked(t: Table, id: GroupId): Table {
    var u := Ensure(t, id);
    u[id := u[id].(count := u[id].count + 1, countInFalse := u[id].countInFalse + 1)]
  }

  function ItemList(t: Table, id: GroupId): Attempt<seq<Item>> {
    if id in t then Done(t[id].items) else Raised(KeyError)
  }

  function GetCount(t: Table, id: GroupId): int {
    if id in t then t[id].count else 0
  }

  function DecCount(t: Table, id: GroupId): Attempt<Table> {
    if id !in t then Raised(KeyError)
    else if t[id].count - 1 < 0 then Raised(ValueError)
    else Done(t[id := t[id].(count := t[id].count - 1)])
  }

  function GetOk(t: Table, id: GroupId): Attempt<bool> {
    if id in t then Done(t[id].ok) else Raised(KeyError)
  }

  function SetOk(t: Table, id: GroupId, to: bool): Attempt<Table> {
    if id in t then Done(t[id := t[id].(ok := to)]) else Raised(KeyError)
  }

  /** Position of the first occurrence of `item`, or the length when there is none. */
  function IndexOf(items: seq<Item>, item: Item): (k: nat)
    ensures k <= |items|
    ensures k < |items| ==> items[k] == item
    ensures item !in items[..k]
    ensures item in items ==> k < |items|
  {
    if items == [] || items[0] == item then 0
    else
      var k := 1 + IndexOf(items[1..], item);
      assert items[..k] == [items[0]] + items[1..][..k - 1];
      k
  }

  function RemoveItem(t: Table, id: GroupId, item: Item): Attempt<Table> {
    if id !in t then Raised(KeyError)
    else
      var items := t[id].items;
      var k := IndexOf(items, item);
      if k == |items| then Raised(ValueError)
      else Done(t[id := t[id].(items := items[..k] + items[k + 1..])])
  }

  /** The item is appended before the counter is checked, so it stays in place when
      the method raises `ValueError`. */
  function AddForBlocked(t: Table, id: GroupId, item: Item): (Table, Attempt<()>) {
    if id !in t then (t, Raised(KeyError))
    else
      var v := t[id].(items := t[id].items + [item]);
      if v.countInFalse - 1 < 0 then (t[id := v], Raised(ValueError))
      else (t[id := v.(countInFalse := v.countInFalse - 1)], Done(()))
  }
}

/** The mapping object itself, with the methods of the source. */
module SharedGroups {
  import opened Attempts
  import opened Groups
  import G = Groups

  /** Every method holds the object's lock throughout, so each
      is one atomic step of the two-thread system in `Scheduler`. */
  class GroupTable {
    var groups: Table

    constructor ()
      ensures groups == map[Internal := EMPTY_VALUE]
    {
      groups := map[Internal := EMPTY_VALUE];
    }

    method Add(id: GroupId, val: Item)
      modifies this
      ensures groups == G.Add(old(groups), id, val)
    {
      if id in groups {
        groups := groups[id := groups[id].(items := groups[id].items + [val])];
      } else {
        groups := groups[id := Value(0, 0, [val], true)];
      }
      groups := groups[id := groups[id].(count := groups[id].count + 1)];
      assert [] + [val] == [val];
    }

    method Ensure(id: GroupId)
      modifies this
      ensures groups == G.Ensure(old(groups), id)
    {
      if id !in groups {
        groups := groups[id := EMPTY_VALUE];
      }
    }

    method GetCount(id: GroupId) returns (n: int)
      ensures n == G.GetCount(groups, id)
    {
      if id !in groups { return 0; }
      return groups[id].count;
    }

    method DecCount(id: GroupId) returns (r: Attempt<int>)
      modifies this
      ensures match G.DecCount(old(groups), id)
              case Raised(f) => r == Raised(f) && groups == old(groups)
              case Done(t) => groups == t && r == Done(t[id].count)
    {
      if id !in groups { return Raised(KeyError); }
      var c := groups[id].count - 1;
      if c < 0 { return Raised(ValueError); }
      groups := groups[id := groups[id].(count := c)];
      return Done(c);
    }

    method IncCountForBlocked(id: GroupId)
      modifies this
      ensures groups == G.IncCountForBlocked(old(groups), id)
    {
      if id !in groups {
        groups := groups[id := EMPTY_VALUE];
      }
      groups := groups[id := groups[id].(count := groups[id].count + 1)];
      groups := groups[id := groups[id].(countInFalse := groups[id].countInFalse + 1)];
    }

    method AddForBlocked(id: GroupId, val: Item) returns (r: Attempt<()>)
      modifies this
      ensures (groups, r) == G.AddForBlocked(old(groups), id, val)
    {
      if id !in groups { return Raised(KeyError); }
      groups := groups[id := groups[id].(items := groups[id].items + [val])];
      var c := groups[id].countInFalse - 1;
      if c < 0 { return Raised(ValueError); }
      groups := groups[id := groups[id].(countInFalse := c)];
      assert groups == G.AddForBlocked(old(groups), id, val).0;
      return Done(());
    }

    method GetOk(id: GroupId) returns (r: Attempt<bool>)
      ensures r == G.GetOk(groups, id)
    {
      if id !in groups { return Raised(KeyError); }
      return Done(groups[id].ok);
    }

    method SetOk(id: GroupId, to: bool) returns (r: Attempt<()>)
      modifies this
      ensures match G.SetOk(old(groups), id, to)
              case Raised(f) => r == Raised(f) && groups == old(groups)
              case Done(t) => groups == t && r == Done(())
    {
      if id !in groups { return Raised(KeyError); }
      groups := groups[id := groups[id].(ok := to)];
      return Done(());
    }

    method RemoveItem(id: GroupId, val: Item) returns (r: Attempt<()>)
      modifies this
      ensures match G.RemoveItem(old(groups), id, val)
              case Raised(f) => r == Raised(f) && groups == old(groups)
              case Done(t) => groups == t && r == Done(())
    {
      if id !in groups { return Raised(KeyError); }
      var items := groups[id].items;
      var k := IndexOf(items, val);
      if k == |items| { return Raised(ValueError); }
      groups := groups[id := groups[id].(items := items[..k] + items[k + 1..])];
      return Done(());
    }
  }
}
