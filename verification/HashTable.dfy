/** The chained hash table, and the memory its keys live in. */
module HashTable {
  import opened Attempts
  import opened Chains

  /** A string in allocated memory, told apart from its copies by its address. */
  class Str {
    const text: string

    constructor (text: string)
      ensures this.text == text
    {
      this.text := text;
    }
  }

  /** The strings allocated and not freed yet. */
  class Memory {
    ghost var live: set<Str>

    constructor ()
      ensures live == {}
    {
      live := {};
    }

    method Allocate(text: string) returns (s: Str)
      modifies this
      ensures fresh(s) && s.text == text && live == old(live) + {s}
    {
      s := new Str(text);
      live := live + {s};
    }

    method Free(s: Str)
      requires s in live
      modifies this
      ensures live == old(live) - {s}
    {
      live := live - {s};
    }
  }

  /** A key: the address of a string, or an integer. */
  datatype Key = Pointer(str: Str) | Integer(n: int)

  function NameOf(key: Key): Name {
    match key
    case Pointer(str) => Text(str.text)
    case Integer(n) => Number(n)
  }

  class Node<V> {
    const key: Key
    var value: V
    var next: Node?<V>

    constructor (key: Key, value: V)
      ensures this.key == key && this.value == value && next == null
    {
      this.key, this.value, next := key, value, null;
    }
  }

  ghost function NodeAt<V>(nodes: seq<Node<V>>, i: nat): Node?<V> {
    if i < |nodes| then nodes[i] else null
  }

  ghost predicate PointsForth<V>(nodes: seq<Node<V>>, i: nat)
    requires i < |nodes|
    reads nodes
  {
    nodes[i].next == NodeAt(nodes, i + 1)
  }

  /** The chain that starts at `head` goes through `nodes`. */
  ghost predicate Chained<V>(head: Node?<V>, nodes: seq<Node<V>>)
    reads nodes
  {
    && head == NodeAt(nodes, 0)
    && forall i :: 0 <= i < |nodes| ==> PointsForth(nodes, i)
  }

  ghost function Entries<V>(nodes: seq<Node<V>>): (entries: Chain<V>)
    reads nodes
    ensures |entries| == |nodes|
    ensures forall i :: 0 <= i < |nodes| ==> entries[i] == Entry(NameOf(nodes[i].key), nodes[i].value)
  {
    seq(|nodes|, i requires 0 <= i < |nodes| reads nodes => Entry(NameOf(nodes[i].key), nodes[i].value))
  }

  /** The keys stored in the nodes of all buckets. */
  ghost function KeysIn<V>(nodes: seq<seq<Node<V>>>): set<Key> {
    set h, i | 0 <= h < |nodes| && 0 <= i < |nodes[h]| :: nodes[h][i].key
  }

  lemma KeysPrepended<V>(nodes: seq<seq<Node<V>>>, h: nat, node: Node<V>)
    requires h < |nodes|
    ensures KeysIn(nodes[h := [node] + nodes[h]]) == KeysIn(nodes) + {node.key}
  {
    var more := nodes[h := [node] + nodes[h]];
    assert more[h][0] == node;
    forall g, i | 0 <= g < |nodes| && 0 <= i < |nodes[g]| ensures nodes[g][i].key in KeysIn(more) {
      assert nodes[g][i] == more[g][if g == h then i + 1 else i];
    }
    forall g, i | 0 <= g < |more| && 0 <= i < |more[g]| ensures more[g][i].key in KeysIn(nodes) + {node.key} {
      assert !(g == h && i == 0) ==> more[g][i] == nodes[g][if g == h then i - 1 else i];
    }
  }

  lemma KeysWithout<V>(nodes: seq<seq<Node<V>>>, h: nat, k: nat)
    requires h < |nodes| && k < |nodes[h]|
    ensures KeysIn(nodes[h := Without(nodes[h], k)]) <= KeysIn(nodes)
  {
    var fewer: seq<seq<Node<V>>> := nodes[h := Without(nodes[h], k)];
    forall g, i | 0 <= g < |fewer| && 0 <= i < |fewer[g]| ensures fewer[g][i].key in KeysIn(nodes) {
      assert fewer[g][i] == nodes[g][if g == h && i >= k then i + 1 else i];
    }
  }

  lemma KeysCleared<V>(nodes: seq<seq<Node<V>>>, h: nat)
    requires h < |nodes|
    ensures KeysIn(nodes[h := []]) <= KeysIn(nodes)
  {
    var fewer: seq<seq<Node<V>>> := nodes[h := []];
    forall g, i | 0 <= g < |fewer| && 0 <= i < |fewer[g]| ensures fewer[g][i].key in KeysIn(nodes) {
      assert fewer[g][i] == nodes[g][i];
    }
  }

  /** The strings that are keys in a chain. */
  ghost function KeyStrings<V>(chain: seq<Node<V>>): set<Str> {
    set i | 0 <= i < |chain| && chain[i].key.Pointer? :: chain[i].key.str
  }

  /** The strings that are keys in the first buckets. */
  ghost function StringsUpTo<V>(nodes: seq<seq<Node<V>>>, n: nat): set<Str>
    requires n <= |nodes|
  {
    set h, i | 0 <= h < n && 0 <= i < |nodes[h]| && nodes[h][i].key.Pointer? :: nodes[h][i].key.str
  }

  lemma OneMoreBucket<V>(nodes: seq<seq<Node<V>>>, n: nat)
    requires n < |nodes|
    ensures StringsUpTo(nodes, n + 1) == StringsUpTo(nodes, n) + KeyStrings(nodes[n])
  {
  }

  lemma TailChained<V>(chain: seq<Node<V>>)
    requires chain != [] && forall i :: 0 <= i < |chain| ==> PointsForth(chain, i)
    ensures Chained(NodeAt(chain, 1), chain[1..])
    ensures KeyStrings(chain) == KeyStrings(chain[1..]) + if chain[0].key.Pointer? then {chain[0].key.str} else {}
  {
    var rest := chain[1..];
    forall i | 0 <= i < |rest| ensures PointsForth(rest, i) && rest[i] == chain[i + 1] {
      assert PointsForth(chain, i + 1);
    }
    forall s | s in KeyStrings(chain)
      ensures s in KeyStrings(rest) || (chain[0].key.Pointer? && s == chain[0].key.str) {
      var i :| 0 <= i < |chain| && chain[i].key.Pointer? && chain[i].key.str == s;
      assert i > 0 ==> rest[i - 1] == chain[i];
    }
  }

  class Table<V> {
    const memory: Memory
    const buckets: array<Node?<V>>
    ghost var nodes: seq<seq<Node<V>>>
    ghost var repr: set<Node<V>>

    ghost predicate Linked()
      reads this, buckets, repr
    {
      && buckets.Length == SIZE == |nodes|
      && (forall h, i :: 0 <= h < SIZE && 0 <= i < |nodes[h]| ==> nodes[h][i] in repr)
      && (forall h :: 0 <= h < SIZE ==> Chained(buckets[h], nodes[h]))
    }

    ghost function State(): (t: seq<Chain<V>>)
      requires Linked()
      reads this, buckets, repr
      ensures |t| == SIZE
      ensures forall h :: 0 <= h < SIZE ==> t[h] == Entries(nodes[h])
    {
      seq(SIZE, h requires 0 <= h < SIZE && Linked() reads this, buckets, repr => Entries(nodes[h]))
    }

    ghost predicate Valid()
      reads this, buckets, repr
    {
      Linked() && Sound(State())
    }

    /** Every string that is a key is still allocated. */
    ghost predicate KeysLive()
      reads this, memory
    {
      forall key <- KeysIn(nodes) :: Alive(key)
    }

    ghost predicate Alive(key: Key)
      reads memory
    {
      key.Pointer? ==> key.str in memory.live
    }

    constructor (memory: Memory)
      ensures Valid() && KeysLive() && fresh(buckets) && repr == {} && this.memory == memory
      ensures State() == seq(SIZE, _ => [])
    {
      this.memory := memory;
      buckets := new Node?<V>[SIZE](_ => null);
      nodes := seq(SIZE, _ => []);
      repr := {};
    }

    /** Comparing two keys reads both strings. */
    method Same(a: Key, b: Key) returns (same: bool)
      requires Alive(a) && Alive(b)
      ensures same == (NameOf(a) == NameOf(b))
    {
      same := NameOf(a) == NameOf(b);
    }

    /** Follows a chain up to the first node with a key, keeping the node before it: the loop
        that every operation runs. */
    method Seek(h: nat, key: Key) returns (previous: Node?<V>, current: Node?<V>, ghost k: nat)
      requires Valid() && KeysLive() && Alive(key) && h < SIZE
      ensures k == Position(State()[h], NameOf(key))
      ensures current == NodeAt(nodes[h], k) && previous == if k == 0 then null else nodes[h][k - 1]
    {
      ghost var chain := State()[h];
      previous, current, k := null, buckets[h], 0;
      while current != null
        invariant 0 <= k <= |chain| && current == NodeAt(nodes[h], k)
        invariant previous == if k == 0 then null else nodes[h][k - 1]
        invariant forall i :: 0 <= i < k ==> chain[i].name != NameOf(key)
        decreases |chain| - k
      {
        assert PointsForth(nodes[h], k);
        var same := Same(current.key, key);
        if same { return; }
        previous := current;
        current := current.next;
        k := k + 1;
      }
    }

    method Get(key: Key) returns (value: Option<V>)
      requires Valid() && KeysLive() && Alive(key) && Hashable(NameOf(key))
      ensures value == Lookup(State(), NameOf(key))
    {
      var h := Hash(NameOf(key));
      var previous, current, k := Seek(h, key);
      if current != null { return Some(current.value); }
      return None;
    }

    /** The state after one bucket has changed. */
    lemma Assembled(was: seq<Chain<V>>, h: nat, chain: Chain<V>)
      requires Linked() && h < SIZE == |was|
      requires Sound(was) && SoundChain(chain, h)
      requires forall g :: 0 <= g < SIZE ==> Entries(nodes[g]) == if g == h then chain else was[g]
      ensures Valid() && State() == was[h := chain]
    {
    }

    /** Stores a value in the node at place `k` of bucket `h`. */
    method Overwrite(ghost h: nat, ghost k: nat, current: Node<V>, value: V)
      requires Valid() && KeysLive() && h < SIZE && k < |nodes[h]| && nodes[h][k] == current
      modifies current`value
      ensures Valid() && KeysLive() && State() == Chains.Put(old(State()), NameOf(current.key), value)
    {
      ghost var was := State();
      OnlyHere(h, k);
      assert SoundChain(was[h], h) && was[h][k].name == NameOf(current.key);
      current.value := value;
      forall g | 0 <= g < SIZE ensures Chained(buckets[g], nodes[g]) {
        assert old(Chained(buckets[g], nodes[g]));
        forall i | 0 <= i < |nodes[g]| ensures PointsForth(nodes[g], i) {
          assert old(PointsForth(nodes[g], i));
        }
      }
      ghost var chain := was[h][k := Entry(NameOf(current.key), value)];
      assert Entries(nodes[h]) == chain;
      assert forall g :: 0 <= g < SIZE && g != h ==> Entries(nodes[g]) == was[g];
      Assembled(was, h, chain);
    }

    /** Links a new node before the chain of bucket `h`. */
    method LinkFirst(h: nat, node: Node<V>)
      requires Linked() && h < SIZE && node !in repr && node.next == buckets[h]
      modifies this`nodes, this`repr, buckets
      ensures nodes == old(nodes)[h := [node] + old(nodes[h])] && repr == old(repr) + {node}
      ensures Linked() && State() == old(State())[h := [Entry(NameOf(node.key), node.value)] + old(State()[h])]
    {
      ghost var was := State();
      assert Chained(buckets[h], nodes[h]);
      Longer(node, nodes[h]);
      buckets[h] := node;
      nodes, repr := nodes[h := [node] + nodes[h]], repr + {node};
      forall g | 0 <= g < SIZE && g != h ensures Chained(buckets[g], nodes[g]) && Entries(nodes[g]) == was[g] {
        assert old(Chained(buckets[g], nodes[g]));
      }
    }

    /** Stores a key that is not in the table, at the head of the chain of its bucket. */
    method Prepend(h: nat, node: Node<V>)
      requires Valid() && h < SIZE && node !in repr && node.next == buckets[h]
      requires Hashable(NameOf(node.key)) && Hash(NameOf(node.key)) == h
      requires Position(State()[h], NameOf(node.key)) == |State()[h]|
      modifies this`nodes, this`repr, buckets
      ensures KeysIn(nodes) == KeysIn(old(nodes)) + {node.key} && repr == old(repr) + {node}
      ensures Valid() && State() == Chains.Put(old(State()), NameOf(node.key), node.value)
    {
      assert SoundChain(State()[h], h);
      StoredSound(State()[h], h, NameOf(node.key), node.value);
      KeysPrepended(nodes, h, node);
      LinkFirst(h, node);
    }

    lemma Longer(node: Node<V>, nodes: seq<Node<V>>)
      requires Chained(node.next, nodes)
      ensures Chained(node, [node] + nodes)
      ensures Entries([node] + nodes) == [Entry(NameOf(node.key), node.value)] + Entries(nodes)
    {
      forall i | 0 <= i < |nodes| + 1 ensures PointsForth([node] + nodes, i) {
        assert i > 0 ==> PointsForth(nodes, i - 1);
      }
    }

    /** Unlinks the node at place `k > 0` of bucket `h`. */
    method Unlink(ghost h: nat, ghost k: nat, previous: Node<V>, current: Node<V>)
      requires Valid() && h < SIZE && 0 < k < |nodes[h]| && nodes[h][k - 1] == previous && nodes[h][k] == current
      modifies this`nodes, previous`next
      ensures nodes == old(nodes)[h := Without(old(nodes[h]), k)]
      ensures Valid() && State() == old(State())[h := Without(old(State()[h]), k)]
      ensures KeysIn(nodes) <= KeysIn(old(nodes))
    {
      ghost var was := State();
      KeysWithout(nodes, h, k);
      assert SoundChain(was[h], h) && PointsForth(nodes[h], k);
      OnlyHere(h, k - 1);
      previous.next := current.next;
      nodes := nodes[h := Without(nodes[h], k)];
      forall g | 0 <= g < SIZE ensures Chained(buckets[g], nodes[g]) {
        assert old(Chained(buckets[g], nodes[g]));
        forall i | 0 <= i < |nodes[g]| ensures PointsForth(nodes[g], i) {
          assert old(PointsForth(nodes[g], if g == h && i >= k then i + 1 else i));
        }
      }
      ghost var chain := Without(was[h], k);
      assert Entries(nodes[h]) == chain;
      assert forall g :: 0 <= g < SIZE && g != h ==> Entries(nodes[g]) == was[g];
      Assembled(was, h, chain);
    }

    /** Empties bucket `h`. */
    method Clear(h: nat)
      requires Valid() && h < SIZE
      modifies this`nodes, buckets
      ensures nodes == old(nodes)[h := []]
      ensures Valid() && State() == old(State())[h := []]
    {
      ghost var was := State();
      buckets[h] := null;
      nodes := nodes[h := []];
      assert forall g :: 0 <= g < SIZE && g != h ==> old(Chained(buckets[g], nodes[g]));
      Assembled(was, h, []);
    }

    /** A node stands in one place only. */
    lemma OnlyHere(h: nat, i: nat)
      requires Valid() && h < SIZE && i < |nodes[h]|
      ensures forall g, j :: 0 <= g < SIZE && 0 <= j < |nodes[g]| && nodes[g][j] == nodes[h][i] ==> g == h && i == j
    {
      forall g, j | 0 <= g < SIZE && 0 <= j < |nodes[g]| && nodes[g][j] == nodes[h][i] ensures g == h && i == j {
        assert SoundChain(State()[h], h) && SoundChain(State()[g], g);
        assert State()[h][i].name == NameOf(nodes[h][i].key) && State()[g][j].name == NameOf(nodes[g][j].key);
      }
    }

    lemma StillLive(keys: set<Key>)
      requires KeysIn(nodes) <= keys && forall key <- keys :: Alive(key)
      ensures KeysLive()
    {
    }

    method Put(key: Key, value: V)
      requires Valid() && KeysLive() && Alive(key) && Hashable(NameOf(key))
      modifies this`nodes, this`repr, buckets, repr
      ensures Valid() && KeysLive() && forall n :: n in repr ==> n in old(repr) || fresh(n)
      ensures State() == Chains.Put(old(State()), NameOf(key), value)
      ensures KeysIn(nodes) == KeysIn(old(nodes)) + if Lookup(old(State()), NameOf(key)).None? then {key} else {}
    {
      var h := Hash(NameOf(key));
      var previous, current, k := Seek(h, key);
      if current != null {
        Overwrite(h, k, current, value);
      } else {
        Insert(h, key, value);
      }
    }

    method NewFirst(h: nat, key: Key, value: V) returns (node: Node<V>)
      requires Linked() && h < SIZE
      ensures fresh(node) && node.key == key && node.value == value && node.next == buckets[h]
    {
      node := new Node(key, value);
      node.next := buckets[h];
    }

    /** Stores a new key at the head of the chain of bucket `h`. */
    method Insert(h: nat, key: Key, value: V)
      requires Valid() && KeysLive() && Alive(key) && Hashable(NameOf(key)) && h == Hash(NameOf(key))
      requires Position(State()[h], NameOf(key)) == |State()[h]|
      modifies this`nodes, this`repr, buckets
      ensures Valid() && KeysLive() && forall n :: n in repr ==> n in old(repr) || fresh(n)
      ensures State() == Chains.Put(old(State()), NameOf(key), value)
      ensures KeysIn(nodes) == KeysIn(old(nodes)) + {key}
    {
      ghost var keys := KeysIn(nodes);
      var node := NewFirst(h, key, value);
      Prepend(h, node);
      StillLive(keys + {key});
    }

    /** The strings stored as keys under a name. */
    ghost function Held(name: Name): set<Str>
      reads this
    {
      set key | key in KeysIn(nodes) && key.Pointer? && NameOf(key) == name :: key.str
    }

    /** One string at most is stored under a name, and none when the name is not in its chain. */
    lemma HeldExact(h: nat, k: nat, name: Name)
      requires Valid() && Hashable(name) && h == Hash(name) && k == Position(State()[h], name)
      ensures Held(name) ==
        if k < |nodes[h]| && nodes[h][k].key.Pointer? then {nodes[h][k].key.str} else {}
    {
      forall g, j | 0 <= g < SIZE && 0 <= j < |nodes[g]| && NameOf(nodes[g][j].key) == name ensures g == h && j == k {
        assert SoundChain(State()[g], g) && State()[g][j].name == name;
      }
      if k < |nodes[h]| {
        assert State()[h][k].name == NameOf(nodes[h][k].key) && nodes[h][k].key in KeysIn(nodes);
      }
    }

    /** Takes the node out of its chain, or the whole chain when it comes first. */
    method TakeOut(h: nat, ghost k: nat, previous: Node?<V>, current: Node<V>)
      requires Valid() && KeysLive() && h < SIZE && k < |nodes[h]| && k == Position(State()[h], NameOf(current.key))
      requires nodes[h][k] == current && previous == if k == 0 then null else nodes[h][k - 1]
      modifies this`nodes, buckets, repr
      ensures Valid() && KeysLive() && KeysIn(nodes) <= KeysIn(old(nodes))
      ensures State() == old(State())[h := Removed(old(State()[h]), NameOf(current.key))]
    {
      if previous == null {
        KeysCleared(nodes, h);
        Clear(h);
      } else {
        Unlink(h, k, previous, current);
      }
      StillLive(old(KeysIn(nodes)));
    }

    lemma NotHeld(h: nat, name: Name, chain: Chain<V>)
      requires Valid() && Hashable(name) && h == Hash(name) && SoundChain(chain, h)
      requires State()[h] == Removed(chain, name)
      ensures Held(name) == {}
    {
      assert Position(State()[h], name) == |State()[h]|;
      HeldExact(h, |State()[h]|, name);
    }

    /** Removes what is stored under a key, and frees the string stored as the key if asked to.
        Keys that go with the head of their chain are not freed. */
    method Remove(key: Key, deleteKeys: bool)
      requires Valid() && KeysLive() && Alive(key) && Hashable(NameOf(key))
      modifies this`nodes, buckets, repr, memory
      ensures Valid() && KeysLive()
      ensures State() == Chains.Remove(old(State()), NameOf(key))
      ensures memory.live == old(memory.live) - if deleteKeys then old(Held(NameOf(key))) else {}
    {
      var h := Hash(NameOf(key));
      var previous, current, k := Seek(h, key);
      HeldExact(h, k, NameOf(key));
      if current == null {
        assert State() == State()[h := State()[h]];
        return;
      }
      assert NameOf(current.key) == State()[h][k].name && current.key in KeysIn(nodes);
      RemoveFound(h, k, previous, current, deleteKeys);
    }

    method RemoveFound(h: nat, ghost k: nat, previous: Node?<V>, current: Node<V>, deleteKeys: bool)
      requires Valid() && KeysLive() && h < SIZE && k < |nodes[h]| && k == Position(State()[h], NameOf(current.key))
      requires nodes[h][k] == current && previous == if k == 0 then null else nodes[h][k - 1]
      requires Hashable(NameOf(current.key)) && Hash(NameOf(current.key)) == h && Alive(current.key)
      modifies this`nodes, buckets, repr, memory
      ensures Valid() && KeysLive()
      ensures State() == old(State())[h := Removed(old(State()[h]), NameOf(current.key))]
      ensures memory.live == old(memory.live) - if deleteKeys && current.key.Pointer? then {current.key.str} else {}
    {
      ghost var chain := State()[h];
      assert SoundChain(chain, h);
      TakeOut(h, k, previous, current);
      NotHeld(h, NameOf(current.key), chain);
      FreeKey(current.key, deleteKeys);
    }

    /** Frees a string that is no key any more, if asked to. */
    method FreeKey(key: Key, deleteKeys: bool)
      requires Valid() && KeysLive() && Alive(key) && Held(NameOf(key)) == {}
      modifies memory
      ensures KeysLive() && memory.live == old(memory.live) - if deleteKeys && key.Pointer? then {key.str} else {}
    {
      if deleteKeys && key.Pointer? {
        assert forall other <- KeysIn(nodes) ::
          other.Pointer? && other.str == key.str ==> other.str in Held(NameOf(key));
        memory.Free(key.str);
      }
    }

    /** Deletes a chain from its end on, and frees the strings that are keys if asked to. */
    method DeleteChain(list: Node?<V>, ghost chain: seq<Node<V>>, deleteKeys: bool)
      requires Chained(list, chain) && KeyStrings(chain) <= memory.live
      requires forall i, j :: 0 <= i < j < |chain| ==> NameOf(chain[i].key) != NameOf(chain[j].key)
      modifies memory
      ensures memory.live == old(memory.live) - if deleteKeys then KeyStrings(chain) else {}
      decreases |chain|
    {
      if list == null { return; }
      assert PointsForth(chain, 0);
      TailChained(chain);
      DeleteChain(list.next, chain[1..], deleteKeys);
      if deleteKeys && list.key.Pointer? {
        memory.Free(list.key.str);
      }
    }

    /** Deletes one bucket. */
    method DeleteBucket(h: nat, deleteKeys: bool)
      requires Valid() && KeysLive() && h < SIZE
      modifies this`nodes, buckets, memory
      ensures Valid() && KeysLive() && nodes == old(nodes)[h := []]
      ensures memory.live == old(memory.live) - if deleteKeys then KeyStrings(old(nodes[h])) else {}
    {
      ghost var all: seq<seq<Node<V>>> := nodes;
      BucketsApart(h);
      DeleteChain(buckets[h], nodes[h], deleteKeys);
      Clear(h);
      forall key | key in KeysIn(nodes) ensures Alive(key) {
        var g, i :| 0 <= g < SIZE && 0 <= i < |nodes[g]| && nodes[g][i].key == key;
        assert all[g][i].key in KeysIn(all);
      }
    }

    /** No string is a key in two buckets, and no name is in a chain twice. */
    lemma BucketsApart(h: nat)
      requires Valid() && KeysLive() && h < SIZE
      ensures KeyStrings(nodes[h]) <= memory.live
      ensures forall i, j :: 0 <= i < j < |nodes[h]| ==> NameOf(nodes[h][i].key) != NameOf(nodes[h][j].key)
      ensures forall g :: 0 <= g < SIZE && g != h ==> KeyStrings(nodes[g]) !! KeyStrings(nodes[h])
    {
      assert SoundChain(State()[h], h);
      forall i | 0 <= i < |nodes[h]| ensures nodes[h][i].key in KeysIn(nodes) &&
        State()[h][i].name == NameOf(nodes[h][i].key) {
      }
      forall g | 0 <= g < SIZE && g != h ensures KeyStrings(nodes[g]) !! KeyStrings(nodes[h]) {
        assert SoundChain(State()[g], g);
        assert forall i :: 0 <= i < |nodes[g]| ==> State()[g][i].name == NameOf(nodes[g][i].key);
      }
    }

    /** Deletes every bucket: each string that is a key is freed, once, if asked to. */
    method Delete(deleteKeys: bool)
      requires Valid() && KeysLive()
      modifies this`nodes, buckets, memory
      ensures Valid() && State() == seq(SIZE, _ => [])
      ensures memory.live == old(memory.live) - if deleteKeys then StringsUpTo(old(nodes), SIZE) else {}
    {
      for h := 0 to SIZE
        invariant Valid() && KeysLive() && |nodes| == SIZE == |old(nodes)|
        invariant forall g :: 0 <= g < SIZE ==> nodes[g] == if g < h then [] else old(nodes[g])
        invariant memory.live == old(memory.live) - if deleteKeys then StringsUpTo(old(nodes), h) else {}
      {
        DeleteBucket(h, deleteKeys);
        OneMoreBucket(old(nodes), h);
      }
    }
  }
}
