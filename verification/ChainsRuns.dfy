/** The hash table against a mathematical map, over whole runs of operations. */
module ChainsRuns {
  import opened Attempts
  import opened Chains

  // ----- one operation -----

  /** Storing a value changes what is found under its own name only. */
  lemma PutLaw<V>(t: seq<Chain<V>>, name: Name, value: V, other: Name)
    requires Sound(t) && Hashable(name) && Hashable(other)
    ensures Sound(Put(t, name, value))
    ensures Lookup(Put(t, name, value), other) == if other == name then Some(value) else Lookup(t, other)
  {
    var h := Hash(name);
    assert SoundChain(t[h], h);
    StoredSound(t[h], h, name, value);
    if Hash(other) == h {
      StoredFound(t[h], name, value, other);
    }
  }

  lemma FoundAt<V>(chain: Chain<V>, k: nat, name: Name)
    requires k < |chain| && chain[k].name == name && forall i :: 0 <= i < k ==> chain[i].name != name
    ensures Found(chain, name) == Some(chain[k].value)
  {
    assert Position(chain, name) == k;
  }

  lemma FoundNowhere<V>(chain: Chain<V>, name: Name)
    requires forall i :: 0 <= i < |chain| ==> chain[i].name != name
    ensures Found(chain, name) == None
  {
  }

  lemma StoredFound<V>(chain: Chain<V>, name: Name, value: V, other: Name)
    ensures Found(Stored(chain, name, value), other) == if other == name then Some(value) else Found(chain, other)
  {
    var k := Position(chain, name);
    if k < |chain| {
      UpdatedFound(chain, k, Entry(name, value), other);
    } else {
      PrependedFound(chain, Entry(name, value), other);
    }
  }

  lemma UpdatedFound<V>(chain: Chain<V>, p: nat, e: Entry<V>, other: Name)
    requires p < |chain| && p == Position(chain, e.name)
    ensures Found(chain[p := e], other) == if other == e.name then Some(e.value) else Found(chain, other)
  {
    var s, k := chain[p := e], Position(chain, other);
    if other == e.name {
      FoundAt(s, p, other);
    } else if k < |chain| {
      FoundAt(s, k, other);
    } else {
      FoundNowhere(s, other);
    }
  }

  lemma PrependedFound<V>(chain: Chain<V>, e: Entry<V>, other: Name)
    ensures Found([e] + chain, other) == if other == e.name then Some(e.value) else Found(chain, other)
  {
    var s := [e] + chain;
    assert s[0] == e && s[1..] == chain;
  }

  /** What is found after a name is taken out: nothing under it, nor under any other name of its
      bucket when it headed a chain with more entries. */
  lemma RemoveLaw<V>(t: seq<Chain<V>>, name: Name, other: Name)
    requires Sound(t) && Hashable(name) && Hashable(other)
    ensures Sound(Remove(t, name))
    ensures var lost := other == name || (HeadsOthers(t, name) && Hash(other) == Hash(name));
      Lookup(Remove(t, name), other) == if lost then None else Lookup(t, other)
  {
    var h := Hash(name);
    assert SoundChain(t[h], h);
    RemovedSound(t[h], h, name);
    if Hash(other) == h {
      RemovedFound(t[h], h, name, other);
    }
  }

  lemma RemovedFound<V>(chain: Chain<V>, h: nat, name: Name, other: Name)
    requires SoundChain(chain, h)
    ensures Found(Removed(chain, name), other)
      == if other == name || (|chain| > 1 && chain[0].name == name) then None else Found(chain, other)
  {
    var p := Position(chain, name);
    if 0 < p < |chain| {
      WithoutFound(chain, p, name, other);
    }
  }

  lemma WithoutFound<V>(chain: Chain<V>, p: nat, name: Name, other: Name)
    requires p < |chain| && chain[p].name == name
    requires forall i, j :: 0 <= i < j < |chain| ==> chain[i].name != chain[j].name
    ensures Found(Without(chain, p), other) == if other == name then None else Found(chain, other)
  {
    var s, k := Without(chain, p), Position(chain, other);
    if other == name || k == |chain| {
      FoundNowhere(s, other);
    } else {
      FoundAt(s, if k < p then k else k - 1, other);
    }
  }

  /** Taking a name out affects that name alone exactly when it does not head a chain with more
      entries: the head takes the rest of its bucket along. */
  lemma RemoveExact<V>(t: seq<Chain<V>>, name: Name)
    requires Sound(t) && Hashable(name)
    ensures !HeadsOthers(t, name) <==>
      forall other :: Hashable(other) ==>
        Lookup(Remove(t, name), other) == if other == name then None else Lookup(t, other)
  {
    forall other | Hashable(other)
      ensures var lost := other == name || (HeadsOthers(t, name) && Hash(other) == Hash(name));
        Lookup(Remove(t, name), other) == if lost then None else Lookup(t, other)
    {
      RemoveLaw(t, name, other);
    }
    if HeadsOthers(t, name) {
      var chain := t[Hash(name)];
      assert SoundChain(chain, Hash(name));
      var second := chain[1].name;
      assert Hash(second) == Hash(name) && second != name;
      assert Lookup(t, second).Some?;
      assert Lookup(Remove(t, name), second) == None;
    }
  }

  /** Two names that share a bucket: taking out the one stored last loses the other. */
  lemma HeadTakesOthers()
    ensures var t := Put(Put(seq(SIZE, _ => []), Text("test"), 1), Text("teest"), 2);
      && Hashable(Text("test")) && Hashable(Text("teest"))
      && Lookup(t, Text("test")) == Some(1)
      && Lookup(Remove(t, Text("teest")), Text("test")) == None
  {
    var empty: seq<Chain<int>> := seq(SIZE, _ => []);
    var one := Put(empty, Text("test"), 1);
    PutLaw(empty, Text("test"), 1, Text("test"));
    PutLaw(one, Text("teest"), 2, Text("test"));
    PutLaw(one, Text("teest"), 2, Text("teest"));
    assert Hash(Text("test")) == Hash(Text("teest")) == 32;
    assert one[32] == [Entry(Text("test"), 1)];
    assert Put(one, Text("teest"), 2)[32] == [Entry(Text("teest"), 2), Entry(Text("test"), 1)];
    RemoveLaw(Put(one, Text("teest"), 2), Text("teest"), Text("test"));
  }

  // ----- runs -----

  datatype Operation<V> = PutIn(name: Name, value: V) | TakeOut(name: Name)

  predicate AllHashable<V>(ops: seq<Operation<V>>) {
    forall i :: 0 <= i < |ops| ==> Hashable(ops[i].name)
  }

  function TableAfter<V>(ops: seq<Operation<V>>): (t: seq<Chain<V>>)
    requires AllHashable(ops)
    ensures |t| == SIZE
  {
    if ops == [] then seq(SIZE, _ => [])
    else
      var before := TableAfter(ops[..|ops| - 1]);
      match ops[|ops| - 1]
      case PutIn(name, value) => Put(before, name, value)
      case TakeOut(name) => Remove(before, name)
  }

  function MapAfter<V>(ops: seq<Operation<V>>): map<Name, V> {
    if ops == [] then map[]
    else
      var before := MapAfter(ops[..|ops| - 1]);
      match ops[|ops| - 1]
      case PutIn(name, value) => before[name := value]
      case TakeOut(name) => before - {name}
  }

  function Find<V>(m: map<Name, V>, name: Name): Option<V> {
    if name in m then Some(m[name]) else None
  }

  /** The table finds under every name what the map holds. */
  ghost predicate Agrees<V>(ops: seq<Operation<V>>)
    requires AllHashable(ops)
  {
    forall name :: Hashable(name) ==> Lookup(TableAfter(ops), name) == Find(MapAfter(ops), name)
  }

  /** No name is taken out while it heads a chain with more entries. */
  predicate Harmless<V>(ops: seq<Operation<V>>)
    requires AllHashable(ops)
  {
    forall n :: 0 <= n < |ops| && ops[n].TakeOut? ==> !HeadsOthers(TableAfter(ops[..n]), ops[n].name)
  }

  lemma {:induction false} TableSound<V>(ops: seq<Operation<V>>)
    requires AllHashable(ops)
    ensures Sound(TableAfter(ops))
  {
    if ops != [] {
      var before, last := ops[..|ops| - 1], ops[|ops| - 1];
      TableSound(before);
      match last
      case PutIn(name, value) => PutLaw(TableAfter(before), name, value, name);
      case TakeOut(name) => RemoveLaw(TableAfter(before), name, name);
    }
  }

  /** One more operation keeps the agreement exactly when it is harmless. */
  lemma AgreesStep<V>(ops: seq<Operation<V>>)
    requires AllHashable(ops) && ops != [] && Agrees(ops[..|ops| - 1])
    ensures Agrees(ops) <==> (ops[|ops| - 1].TakeOut? ==>
      !HeadsOthers(TableAfter(ops[..|ops| - 1]), ops[|ops| - 1].name))
  {
    var before, last := ops[..|ops| - 1], ops[|ops| - 1];
    var t := TableAfter(before);
    TableSound(before);
    match last
    case PutIn(name, value) =>
      forall other | Hashable(other) ensures Lookup(TableAfter(ops), other) == Find(MapAfter(ops), other) {
        PutLaw(t, name, value, other);
        assert Lookup(t, other) == Find(MapAfter(before), other);
      }
    case TakeOut(name) =>
      RemoveExact(t, name);
      assert forall other :: Hashable(other) ==> Lookup(t, other) == Find(MapAfter(before), other);
  }

  /** The table agrees with the map after the run, and after every part of it from the start. */
  ghost predicate AlwaysAgrees<V>(ops: seq<Operation<V>>)
    requires AllHashable(ops)
  {
    Agrees(ops) && (ops != [] ==> AlwaysAgrees(ops[..|ops| - 1]))
  }

  lemma HarmlessStep<V>(ops: seq<Operation<V>>)
    requires AllHashable(ops) && ops != []
    ensures var before, last := ops[..|ops| - 1], ops[|ops| - 1];
      Harmless(ops) <==> Harmless(before) && (last.TakeOut? ==> !HeadsOthers(TableAfter(before), last.name))
  {
    var before := ops[..|ops| - 1];
    assert forall n :: 0 <= n <= |before| ==> before[..n] == ops[..n];
  }

  /** Over any run of operations the table agrees with a map at every point exactly when no
      operation takes out the head of a chain with more entries. */
  lemma {:induction false} AgreesWithMap<V>(ops: seq<Operation<V>>)
    requires AllHashable(ops)
    ensures AlwaysAgrees(ops) <==> Harmless(ops)
  {
    if ops == [] {
    } else {
      AgreesWithMap(ops[..|ops| - 1]);
      HarmlessStep(ops);
      if AlwaysAgrees(ops[..|ops| - 1]) {
        AgreesStep(ops);
      }
    }
  }
}
