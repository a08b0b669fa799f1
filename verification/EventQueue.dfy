/** The queue of events that waits for the output to become ready: a doubly linked list. */
module EventQueue {
  import opened CStrings

  /** A write: where it came from, its bytes, and the size and offset passed along with them. */
  datatype Event = Event(prefix: string, path: string, buf: string, size: nat, offset: int)

  /** What `strdup` keeps of a buffer: its bytes before the first NUL. */
  function Duplicate(s: string): (d: string)
    ensures d <= s && NUL !in d
    ensures d == s || s[|d|] == NUL
  {
    if s == [] || s[0] == NUL then []
    else [s[0]] + Duplicate(s[1..])
  }

  /** An event as the queue stores it. */
  function Copied(e: Event): Event {
    e.(prefix := Duplicate(e.prefix), path := Duplicate(e.path), buf := Duplicate(e.buf))
  }

  /** Going through the queue leaves an event as it was exactly when none of its strings holds a NUL. */
  lemma CopiedExact(e: Event)
    ensures Copied(e) == e <==> NUL !in e.prefix && NUL !in e.path && NUL !in e.buf
  {
    assert forall s: string :: Duplicate(s) == s ==> NUL !in s;
  }

  /** As many events as the queue can hold: one stays even when the maximum is smaller. */
  predicate Room(n: nat, max: int) {
    n <= max || n <= 1
  }

  /** Appending to a bounded list: its oldest event goes when there were as many as allowed. */
  function Push<E>(q: seq<E>, max: int, e: E): (p: seq<E>)
    requires Room(|q|, max)
    ensures Room(|p|, max)
  {
    (if q != [] && |q| >= max then q[1..] else q) + [e]
  }

  class QueueEvent {
    const prefix: string
    const path: string
    const buf: string
    const size: nat
    const offset: int
    var previous: QueueEvent?
    var next: QueueEvent?

    constructor (prefix: string, path: string, buf: string, size: nat, offset: int, previous: QueueEvent?)
      ensures Value() == Copied(Event(prefix, path, buf, size, offset))
      ensures this.previous == previous && next == null
    {
      this.prefix, this.path, this.buf := Duplicate(prefix), Duplicate(path), Duplicate(buf);
      this.size, this.offset := size, offset;
      this.previous, this.next := previous, null;
    }

    function Value(): Event {
      Event(prefix, path, buf, size, offset)
    }
  }

  /** Where events are handed over: the output plugin, behind exclusions and quota. */
  class Writer {
    var log: seq<Event>

    constructor ()
      ensures log == []
    {
      log := [];
    }

    method Write(prefix: string, path: string, buf: string, size: nat, offset: int)
      modifies this
      ensures log == old(log) + [Event(prefix, path, buf, size, offset)]
    {
      log := log + [Event(prefix, path, buf, size, offset)];
    }
  }

  ghost function Values(nodes: seq<QueueEvent>): (values: seq<Event>)
    ensures |values| == |nodes| && forall i :: 0 <= i < |nodes| ==> values[i] == nodes[i].Value()
  {
    seq(|nodes|, i requires 0 <= i < |nodes| => nodes[i].Value())
  }

  /** The node at a position of the chain, null past either end. */
  ghost function Link(nodes: seq<QueueEvent>, i: int): QueueEvent? {
    if 0 <= i < |nodes| then nodes[i] else null
  }

  ghost predicate PointsBack(nodes: seq<QueueEvent>, i: int)
    requires 0 <= i < |nodes|
    reads nodes
  {
    nodes[i].previous == Link(nodes, i - 1)
  }

  ghost predicate PointsForth(nodes: seq<QueueEvent>, i: int)
    requires 0 <= i < |nodes|
    reads nodes
  {
    nodes[i].next == Link(nodes, i + 1)
  }

  /** Every node points back to the one before it. */
  ghost predicate Backwards(nodes: seq<QueueEvent>)
    reads nodes
  {
    forall i :: 0 <= i < |nodes| ==> PointsBack(nodes, i)
  }

  ghost predicate Distinct(nodes: seq<QueueEvent>) {
    forall i, j :: 0 <= i < j < |nodes| ==> nodes[i] != nodes[j]
  }

  class Queue {
    const max: int
    var last: QueueEvent?
    var size: int
    ghost var nodes: seq<QueueEvent>

    /** The links form one chain through `nodes`, in both directions and without a cycle. */
    ghost predicate Linked()
      reads this, nodes
    {
      && size == |nodes| && last == Link(nodes, |nodes| - 1)
      && Distinct(nodes) && Backwards(nodes)
      && (forall i :: 0 <= i < |nodes| ==> PointsForth(nodes, i))
    }

    ghost predicate Valid()
      reads this, nodes
    {
      Linked() && Room(size, max)
    }

    ghost function Contents(): (contents: seq<Event>)
      reads this
      ensures |contents| == |nodes|
    {
      Values(nodes)
    }

    constructor (max: int)
      ensures Valid() && Contents() == [] && nodes == [] && this.max == max
    {
      this.max, last, size, nodes := max, null, 0, [];
    }

    /** Removes the oldest of at least two events; a single one stays. */
    method DropFirst()
      requires Linked()
      modifies this, nodes
      ensures Linked()
      ensures nodes == if |old(nodes)| >= 2 then old(nodes)[1..] else old(nodes)
    {
      var current := last;
      ghost var k := |nodes| - 1;
      while current != null
        invariant -1 <= k < |nodes| && current == Link(nodes, k)
        invariant Linked() && nodes == old(nodes)
        invariant k < 1 ==> |nodes| < 2
        decreases k
      {
        assert PointsBack(nodes, k) && (k > 0 ==> PointsBack(nodes, k - 1));
        if current.previous != null && current.previous.previous == null {
          ghost var was := nodes;
          label Before:
          current.previous := null;
          size := size - 1;
          nodes := nodes[1..];
          forall i | 0 <= i < |nodes| ensures PointsBack(nodes, i) && PointsForth(nodes, i) {
            assert old@Before(PointsBack(was, i + 1) && PointsForth(was, i + 1));
          }
          return;
        }
        current := current.previous;
        k := k - 1;
      }
    }

    /** Links a new node after the last one. */
    method Append(event: QueueEvent)
      requires Linked() && event !in nodes
      requires event.previous == last && event.next == null
      modifies this`last, this`size, this`nodes, last
      ensures Linked() && nodes == old(nodes) + [event]
    {
      ghost var was := nodes;
      if event.previous != null { event.previous.next := event; }
      last := event;
      size := size + 1;
      nodes := was + [event];
      forall i | 0 <= i < |nodes| ensures PointsBack(nodes, i) && PointsForth(nodes, i) {
        if i < |was| {
          assert old(PointsBack(was, i) && PointsForth(was, i));
        }
      }
    }

    method Enqueue(prefix: string, path: string, buf: string, size: nat, offset: int)
      requires Valid()
      modifies this, nodes
      ensures Valid()
      ensures forall k :: 0 <= k < |nodes| ==> nodes[k] in old(nodes) || fresh(nodes[k])
      ensures Contents() == Push(old(Contents()), max, Copied(Event(prefix, path, buf, size, offset)))
      ensures old(|nodes|) < max || old(|nodes|) == 0 ==>
        Contents() == old(Contents()) + [Copied(Event(prefix, path, buf, size, offset))]
      ensures old(|nodes|) >= max && old(|nodes|) > 0 ==>
        Contents() == old(Contents())[1..] + [Copied(Event(prefix, path, buf, size, offset))]
    {
      ghost var before := nodes;
      var event := new QueueEvent(prefix, path, buf, size, offset, last);
      Append(event);
      if this.size - 1 >= max {
        DropFirst();
      }
      Pushed(before, event, max);
    }

    lemma Pushed(before: seq<QueueEvent>, event: QueueEvent, max: int)
      requires Room(|before|, max)
      ensures Values(before + [event]) == Values(before) + [event.Value()]
      ensures before != [] ==> Values((before + [event])[1..]) == Values(before)[1..] + [event.Value()]
    {
    }

    /** Takes the events off one by one, from the newest. */
    method Clear()
      requires last == Link(nodes, |nodes| - 1) && size == |nodes| && Backwards(nodes)
      modifies this
      ensures Valid() && nodes == []
    {
      while last != null
        invariant last == Link(nodes, |nodes| - 1) && size == |nodes| && Backwards(nodes)
        decreases |nodes|
      {
        assert PointsBack(nodes, |nodes| - 1);
        last := last.previous;
        size := size - 1;
        ghost var was := nodes;
        nodes := nodes[..|nodes| - 1];
        forall i | 0 <= i < |nodes| ensures PointsBack(nodes, i) {
          assert PointsBack(was, i);
        }
      }
    }

    /** Hands every event over, oldest first, and empties the queue. */
    method Dequeue(writer: Writer)
      requires Valid()
      modifies this, writer
      ensures Valid() && nodes == []
      ensures writer.log == old(writer.log) + old(Contents())
    {
      var current := last;
      if current == null { return; }
      ghost var k := |nodes| - 1;
      while current.previous != null
        invariant 0 <= k < |nodes| && current == nodes[k]
        decreases k
      {
        assert PointsBack(nodes, k);
        current := current.previous;
        k := k - 1;
      }
      assert PointsBack(nodes, k);
      while current != null
        invariant Linked() && nodes == old(nodes) && size == old(size)
        invariant 0 <= k <= |nodes| && current == Link(nodes, k)
        invariant writer.log == old(writer.log) + Contents()[..k]
        decreases |nodes| - k
      {
        writer.Write(current.prefix, current.path, current.buf, current.size, current.offset);
        assert Contents()[..k + 1] == Contents()[..k] + [Contents()[k]];
        assert PointsForth(nodes, k);
        current := current.next;
        k := k + 1;
      }
      Clear();
    }
  }

  class Output {
    const queue: Queue
    const writer: Writer

    constructor (max: int)
      ensures queue.Valid() && fresh(queue) && fresh(writer) && queue.max == max
      ensures queue.nodes == [] && writer.log == []
    {
      queue := new Queue(max);
      writer := new Writer();
    }

    /** A write goes out after all that waits when the output is ready, and waits otherwise. */
    method Write(prefix: string, path: string, buf: string, size: nat, offset: int, ready: bool)
      requires queue.Valid()
      modifies queue, writer, queue.nodes
      ensures queue.Valid()
      ensures forall k :: 0 <= k < |queue.nodes| ==> queue.nodes[k] in old(queue.nodes) || fresh(queue.nodes[k])
      ensures var e := Event(prefix, path, buf, size, offset);
        if ready then writer.log == old(writer.log) + old(queue.Contents()) + [e] && queue.nodes == []
        else writer.log == old(writer.log) && queue.Contents() == Push(old(queue.Contents()), queue.max, Copied(e))
    {
      if ready {
        queue.Dequeue(writer);
        writer.Write(prefix, path, buf, size, offset);
      } else {
        queue.Enqueue(prefix, path, buf, size, offset);
      }
    }
  }
}
