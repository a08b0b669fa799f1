/** What the chained hash table stores, bucket by bucket. */
module Chains {
  import opened Attempts

  /** What keys are compared by. */
  datatype Name = Text(text: string) | Number(n: int)

  const SIZE := 100

  /** Names that an index can be computed for: integers, and strings of bytes that are not empty. */
  predicate Indexable(name: Name) {
    name.Text? ==> name.text != [] && forall i :: 0 <= i < |name.text| ==> name.text[i] as int < 256
  }

  function SignedChar(c: char): int
    requires c as int < 256
  {
    if c as int < 128 then c as int else c as int - 256
  }

  /** What the index is the remainder of: characters are signed. */
  function Weight(name: Name): int
    requires Indexable(name)
  {
    match name
    case Text(t) => SignedChar(t[0]) + SignedChar(t[|t| - 1])
    case Number(n) => if n < 0 then -n else n
  }

  /** A byte counts as the number from -128 to 127 that is congruent to it, and only the first and the
      last count. */
  lemma WeightExact(name: Name)
    requires Indexable(name) && name.Text?
    ensures var first, last := name.text[0] as int, name.text[|name.text| - 1] as int;
      Weight(name) == (first + 128) % 256 - 128 + ((last + 128) % 256 - 128)
  {
  }

  /** The remainder has the sign of the weight. */
  function Index(name: Name): int
    requires Indexable(name)
  {
    var n := Weight(name);
    if n < 0 then -(-n % SIZE) else n % SIZE
  }

  /** The names whose index lies in the table. */
  predicate Hashable(name: Name) {
    Indexable(name) && 0 <= Index(name)
  }

  /** For all others the code would reach outside the table. */
  lemma HashableExact(name: Name)
    requires Indexable(name)
    ensures Index(name) < SIZE
    ensures Hashable(name) <==> Weight(name) >= 0 || Weight(name) == -100 || Weight(name) == -200
    ensures name.Text? && (forall i :: 0 <= i < |name.text| ==> name.text[i] as int < 128) ==> Hashable(name)
  {
    var n := Weight(name);
    if n < 0 {
      assert -n % SIZE == 0 <==> n == -100 || n == -200;
    }
  }

  /** A file name that ends in U+00E9: its last byte in UTF-8 is 0xA9, which as a signed character
      is -87. */
  lemma BeforeTheTable()
    ensures var name := Text(['/', 0xC3 as char, 0xA9 as char]);
      Indexable(name) && Index(name) == -40 && !Hashable(name)
  {
  }

  function Hash(name: Name): (h: nat)
    requires Hashable(name)
    ensures h < SIZE
  {
    Index(name)
  }

  // ----- the table as a value -----

  datatype Entry<V> = Entry(name: Name, value: V)

  type Chain<V> = seq<Entry<V>>

  function Position<V>(chain: Chain<V>, name: Name): (k: nat)
    ensures k <= |chain|
    ensures k < |chain| ==> chain[k].name == name
    ensures forall i :: 0 <= i < k ==> chain[i].name != name
  {
    if chain == [] || chain[0].name == name then 0 else 1 + Position(chain[1..], name)
  }

  /** Every chain holds names of its own bucket only, each once. */
  ghost predicate Sound<V>(t: seq<Chain<V>>) {
    && |t| == SIZE
    && forall h :: 0 <= h < SIZE ==> SoundChain(t[h], h)
  }

  ghost predicate SoundChain<V>(chain: Chain<V>, h: nat) {
    && (forall i :: 0 <= i < |chain| ==> Hashable(chain[i].name) && Hash(chain[i].name) == h)
    && (forall i, j :: 0 <= i < j < |chain| ==> chain[i].name != chain[j].name)
  }

  function Found<V>(chain: Chain<V>, name: Name): Option<V> {
    var k := Position(chain, name);
    if k < |chain| then Some(chain[k].value) else None
  }

  function Lookup<V>(t: seq<Chain<V>>, name: Name): Option<V>
    requires |t| == SIZE && Hashable(name)
  {
    Found(t[Hash(name)], name)
  }

  /** Storing in place, or at the head of the chain. */
  function Stored<V>(chain: Chain<V>, name: Name, value: V): Chain<V> {
    var k := Position(chain, name);
    if k < |chain| then chain[k := Entry(name, value)] else [Entry(name, value)] + chain
  }

  function Without<T>(s: seq<T>, k: nat): (w: seq<T>)
    requires k < |s|
    ensures |w| == |s| - 1 && forall i :: 0 <= i < |w| ==> w[i] == s[if i < k then i else i + 1]
  {
    s[..k] + s[k + 1..]
  }

  /** Taking an entry out: when it heads the chain, the whole chain goes with it. */
  function Removed<V>(chain: Chain<V>, name: Name): Chain<V> {
    var k := Position(chain, name);
    if k == |chain| then chain
    else if k == 0 then []
    else Without(chain, k)
  }

  function Put<V>(t: seq<Chain<V>>, name: Name, value: V): seq<Chain<V>>
    requires |t| == SIZE && Hashable(name)
  {
    t[Hash(name) := Stored(t[Hash(name)], name, value)]
  }

  function Remove<V>(t: seq<Chain<V>>, name: Name): seq<Chain<V>>
    requires |t| == SIZE && Hashable(name)
  {
    t[Hash(name) := Removed(t[Hash(name)], name)]
  }

  /** The name heads a chain that has more entries. */
  predicate HeadsOthers<V>(t: seq<Chain<V>>, name: Name)
    requires |t| == SIZE && Hashable(name)
  {
    var chain := t[Hash(name)];
    |chain| > 1 && chain[0].name == name
  }

  /** Storing and taking out keep a chain to its bucket, each name once. */
  lemma StoredSound<V>(chain: Chain<V>, h: nat, name: Name, value: V)
    requires SoundChain(chain, h) && Hashable(name) && Hash(name) == h
    ensures SoundChain(Stored(chain, name, value), h)
  {
  }

  lemma RemovedSound<V>(chain: Chain<V>, h: nat, name: Name)
    requires SoundChain(chain, h)
    ensures SoundChain(Removed(chain, name), h)
  {
  }
}
