/** Whole runs of writes while the output comes and goes. */
module StoreAndForward {
  import opened EventQueue

  /** One write: the event as it is, as the queue would store it, and whether the output was ready
      when it came. */
  datatype Step<E> = Step(event: E, stored: E, ready: bool)

  datatype State<E> = State(written: seq<E>, queued: seq<E>, dropped: nat)

  function Next<E>(s: State<E>, max: int, step: Step<E>): (t: State<E>)
    requires Room(|s.queued|, max)
    ensures Room(|t.queued|, max)
  {
    if step.ready then State(s.written + s.queued + [step.event], [], s.dropped)
    else
      var queued := Push(s.queued, max, step.stored);
      State(s.written, queued, s.dropped + |s.queued| + 1 - |queued|)
  }

  /** The state after the first `n` writes. */
  function After<E>(max: int, steps: seq<Step<E>>, n: nat): (s: State<E>)
    requires n <= |steps|
    ensures Room(|s.queued|, max)
  {
    if n == 0 then State([], [], 0) else Next(After(max, steps, n - 1), max, steps[n - 1])
  }

  /** The output goes through exactly the states of `After`. */
  method Run(max: int, steps: seq<Step<Event>>) returns (written: seq<Event>, size: int)
    requires forall i :: 0 <= i < |steps| ==> steps[i].stored == Copied(steps[i].event)
    ensures written == After(max, steps, |steps|).written && size == |After(max, steps, |steps|).queued|
  {
    var output := new Output(max);
    for i := 0 to |steps|
      invariant fresh(output.queue) && fresh(output.writer)
      invariant forall k :: 0 <= k < |output.queue.nodes| ==> fresh(output.queue.nodes[k])
      invariant output.queue.Valid() && output.queue.max == max
      invariant output.writer.log == After(max, steps, i).written
      invariant output.queue.Contents() == After(max, steps, i).queued
    {
      var e := steps[i].event;
      output.Write(e.prefix, e.path, e.buf, e.size, e.offset, steps[i].ready);
    }
    return output.writer.log, output.queue.size;
  }

  // ----- which writes come out -----

  /** The first of the writes from number `i` to number `n` that finds the output ready. */
  function NextReady<E>(steps: seq<Step<E>>, i: nat, n: nat): (j: nat)
    requires i <= n <= |steps|
    ensures i <= j <= n
    decreases n - i
  {
    if i == n || steps[i].ready then i else NextReady(steps, i + 1, n)
  }

  /** Among the first `n` writes, one comes out when the output gets ready before more writes than
      the queue can hold have piled up behind it, itself included. */
  predicate ComesOut<E>(max: int, steps: seq<Step<E>>, n: nat, i: nat)
    requires i < n <= |steps|
  {
    var j := NextReady(steps, i, n);
    j < n && (j - i <= max || j - i <= 1)
  }

  /** How a write comes out: as it came, or as the queue stored it. */
  function Form<E>(step: Step<E>): E {
    if step.ready then step.event else step.stored
  }

  function Forms<E>(steps: seq<Step<E>>, from: nat, to: nat): (events: seq<E>)
    requires from <= to <= |steps|
    ensures |events| == to - from && forall i :: 0 <= i < to - from ==> events[i] == Form(steps[from + i])
  {
    seq(to - from, i requires 0 <= i < to - from => Form(steps[from + i]))
  }

  /** Of the first `n` writes, those before number `k` that come out, in the order they were made. */
  function Out<E>(max: int, steps: seq<Step<E>>, n: nat, k: nat): seq<E>
    requires k <= n <= |steps|
  {
    if k == 0 then []
    else Out(max, steps, n, k - 1) + Given(max, steps, n, k - 1)
  }

  /** Where the writes since the output was last ready begin. */
  function Start<E>(steps: seq<Step<E>>, n: nat): (t: nat)
    requires n <= |steps|
    ensures t <= n
    ensures forall i :: t <= i < n ==> !steps[i].ready
  {
    if n == 0 || steps[n - 1].ready then n else Start(steps, n - 1)
  }

  /** Where the writes that wait begin: no more than the queue can hold. */
  function From<E>(max: int, steps: seq<Step<E>>, n: nat): (f: nat)
    requires n <= |steps|
    ensures Start(steps, n) <= f <= n
  {
    var waiting := n - Start(steps, n);
    if waiting <= max || waiting <= 1 then Start(steps, n) else if max >= 1 then n - max else n - 1
  }

  lemma {:induction false} ReadyAhead<E>(steps: seq<Step<E>>, i: nat, n: nat)
    requires i < n <= |steps|
    ensures NextReady(steps, i, n) == n <==> i >= Start(steps, n)
    decreases n - i
  {
    StartReady(steps, n);
    if !steps[i].ready && i + 1 < n {
      ReadyAhead(steps, i + 1, n);
    }
  }

  lemma {:induction false} StartReady<E>(steps: seq<Step<E>>, n: nat)
    requires n <= |steps|
    ensures Start(steps, n) > 0 ==> steps[Start(steps, n) - 1].ready
  {
    if n > 0 && !steps[n - 1].ready {
      StartReady(steps, n - 1);
    }
  }

  /** One more write changes the fate only of those that were waiting. */
  lemma {:induction false} NextReadyStep<E>(steps: seq<Step<E>>, i: nat, n: nat)
    requires i <= n < |steps|
    ensures NextReady(steps, i, n + 1) ==
      if NextReady(steps, i, n) < n || steps[n].ready then NextReady(steps, i, n) else n + 1
    decreases n - i
  {
    if i < n && !steps[i].ready {
      NextReadyStep(steps, i + 1, n);
    }
  }

  /** A write that waits comes out with the next one if that finds the output ready and the queue
      still holds it; the fate of the others is settled. */
  lemma Fate<E>(max: int, steps: seq<Step<E>>, n: nat, i: nat)
    requires i < n < |steps|
    ensures i >= Start(steps, n) ==> !ComesOut(max, steps, n, i)
    ensures i >= Start(steps, n) ==> (ComesOut(max, steps, n + 1, i) <==> steps[n].ready && i >= From(max, steps, n))
    ensures i < Start(steps, n) ==> (ComesOut(max, steps, n + 1, i) <==> ComesOut(max, steps, n, i))
  {
    ReadyAhead(steps, i, n);
    NextReadyStep(steps, i, n);
  }

  /** The writes from number `f` to number `k`, when they are let out. */
  function Released<E>(steps: seq<Step<E>>, ready: bool, f: nat, k: nat): seq<E>
    requires k <= |steps|
  {
    if ready && k >= f then Forms(steps, f, k) else []
  }

  /** What write number `i` gives to the output, of the first `n`. */
  function Given<E>(max: int, steps: seq<Step<E>>, n: nat, i: nat): seq<E>
    requires i < n <= |steps|
  {
    if ComesOut(max, steps, n, i) then [Form(steps[i])] else []
  }

  lemma ReleasedStep<E>(max: int, steps: seq<Step<E>>, n: nat, i: nat)
    requires i < n < |steps|
    ensures var before, after := Given(max, steps, n, i), Given(max, steps, n + 1, i);
      var f := From(max, steps, n);
      var b, c := Released(steps, steps[n].ready, f, i), Released(steps, steps[n].ready, f, i + 1);
      (after == before && b == [] && c == []) || (before == [] && c == b + after)
  {
    Fate(max, steps, n, i);
    var f := From(max, steps, n);
    if steps[n].ready && i >= f {
      assert Forms(steps, f, i + 1) == Forms(steps, f, i) + [Form(steps[i])];
    }
  }

  lemma Weave<E>(a: seq<E>, b: seq<E>, c: seq<E>, before: seq<E>, after: seq<E>)
    requires (after == before && b == [] && c == []) || (before == [] && c == b + after)
    ensures (a + b) + after == (a + before) + c
  {
    if before == [] && c == b + after {
      assert (a + b) + after == a + (b + after);
      assert a + before == a;
    }
  }

  lemma {:induction false} OutStep<E>(max: int, steps: seq<Step<E>>, n: nat, k: nat, f: nat)
    requires k <= n < |steps| && f == From(max, steps, n)
    ensures Out(max, steps, n + 1, k) == Out(max, steps, n, k) + Released(steps, steps[n].ready, f, k)
  {
    if k > 0 {
      OutStep(max, steps, n, k - 1, f);
      ReleasedStep(max, steps, n, k - 1);
      var a, b, c := Out(max, steps, n, k - 1), Released(steps, steps[n].ready, f, k - 1),
        Released(steps, steps[n].ready, f, k);
      var before, after := Given(max, steps, n, k - 1), Given(max, steps, n + 1, k - 1);
      assert Out(max, steps, n, k) == a + before;
      assert Out(max, steps, n + 1, k) == Out(max, steps, n + 1, k - 1) + after == (a + b) + after;
      assert (a + b) + after == (a + before) + c by {
        Weave(a, b, c, before, after);
      }
    }
  }

  /** Over every run the events written are exactly those that `ComesOut` selects, in the order
      they were produced and each once, and those that wait are the last ones since the output
      was ready, as many as the queue can hold. */
  lemma {:induction false} WrittenInOrder<E>(max: int, steps: seq<Step<E>>, n: nat)
    requires n <= |steps|
    ensures After(max, steps, n).written == Out(max, steps, n, n)
    ensures After(max, steps, n).queued == Forms(steps, From(max, steps, n), n)
  {
    if n > 0 {
      WrittenInOrder(max, steps, n - 1);
      OutStep(max, steps, n - 1, n - 1, From(max, steps, n - 1));
      QueueStep(max, steps, n - 1);
      LastGiven(max, steps, n);
      assert Out(max, steps, n, n) == Out(max, steps, n, n - 1) + Given(max, steps, n, n - 1);
    }
  }

  /** The last write comes out at once when it finds the output ready. */
  lemma LastGiven<E>(max: int, steps: seq<Step<E>>, n: nat)
    requires 0 < n <= |steps|
    ensures Given(max, steps, n, n - 1) == if steps[n - 1].ready then [steps[n - 1].event] else []
  {
  }

  lemma QueueStep<E>(max: int, steps: seq<Step<E>>, n: nat)
    requires n < |steps|
    ensures Room(|Forms(steps, From(max, steps, n), n)|, max)
    ensures !steps[n].ready ==>
      Forms(steps, From(max, steps, n + 1), n + 1) == Push(Forms(steps, From(max, steps, n), n), max, steps[n].stored)
    ensures steps[n].ready ==> From(max, steps, n + 1) == n + 1
  {
    if !steps[n].ready {
      FormsPush(max, steps, From(max, steps, n), From(max, steps, n + 1), n);
    }
  }

  lemma FormsPush<E>(max: int, steps: seq<Step<E>>, f: nat, g: nat, n: nat)
    requires f <= n < |steps| && Room(n - f, max) && !steps[n].ready
    requires g == if n - f < max || n - f < 1 then f else f + 1
    ensures Forms(steps, g, n + 1) == Push(Forms(steps, f, n), max, steps[n].stored)
  {
    var queue, pushed := Forms(steps, g, n + 1), Push(Forms(steps, f, n), max, steps[n].stored);
    assert |queue| == |pushed|;
    assert forall i :: 0 <= i < |queue| ==> queue[i] == pushed[i];
  }

  /** Every event produced is written, queued or dropped. */
  lemma {:induction false} Conservation<E>(max: int, steps: seq<Step<E>>, n: nat)
    requires n <= |steps|
    ensures |After(max, steps, n).written| + |After(max, steps, n).queued| + After(max, steps, n).dropped == n
  {
    if n > 0 {
      Conservation(max, steps, n - 1);
    }
  }

  predicate NotReady<E>(steps: seq<Step<E>>, m: nat, n: nat)
    requires m <= n <= |steps|
  {
    forall i :: m <= i < n ==> !steps[i].ready
  }

  /** After a stretch of writes that found the output not ready, starting with an empty queue,
      exactly the last of them that fit are written before the next live one. */
  lemma LastOnes<E>(max: int, steps: seq<Step<E>>, m: nat, n: nat)
    requires m <= n < |steps| && After(max, steps, m).queued == []
    requires NotReady(steps, m, n) && steps[n].ready
    ensures var kept := if n - m <= max || n - m <= 1 then n - m else if max >= 1 then max else 1;
      After(max, steps, n + 1).written == After(max, steps, m).written + Forms(steps, n - kept, n) + [steps[n].event]
  {
    Quiet(max, steps, m, n);
    WrittenInOrder(max, steps, m);
    WrittenInOrder(max, steps, n);
    StartOf(steps, m, n);
  }

  /** As many events wait as were made since the output was last ready, up to the maximum; one at
      least when there are any. */
  lemma WaitingExact<E>(max: int, steps: seq<Step<E>>, m: nat, n: nat)
    requires m <= n <= |steps| && NotReady(steps, m, n) && (m > 0 ==> steps[m - 1].ready)
    ensures |After(max, steps, n).queued| ==
      if n - m <= max || n - m <= 1 then n - m else if max >= 1 then max else 1
  {
    WrittenInOrder(max, steps, n);
    StartOf(steps, m, n);
  }

  /** A write comes out exactly when some later one, or itself, is the first from it on to find the
      output ready, no more than the maximum of writes behind it, or one. */
  lemma ComesOutExact<E>(max: int, steps: seq<Step<E>>, n: nat, i: nat)
    requires i < n <= |steps|
    ensures ComesOut(max, steps, n, i) <==>
      exists j :: i <= j < n && steps[j].ready && NotReady(steps, i, j) && (j - i <= max || j - i <= 1)
  {
    FirstReady(steps, i, n);
  }

  lemma {:induction false} FirstReady<E>(steps: seq<Step<E>>, i: nat, n: nat)
    requires i <= n <= |steps|
    ensures var j := NextReady(steps, i, n); NotReady(steps, i, j) && (j < n ==> steps[j].ready)
    decreases n - i
  {
    if i < n && !steps[i].ready {
      FirstReady(steps, i + 1, n);
    }
  }

  /** Nothing is written while the output is not ready. */
  lemma {:induction false} Quiet<E>(max: int, steps: seq<Step<E>>, m: nat, n: nat)
    requires m <= n <= |steps| && NotReady(steps, m, n)
    ensures After(max, steps, n).written == After(max, steps, m).written
  {
    if m < n {
      Quiet(max, steps, m, n - 1);
    }
  }

  lemma {:induction false} StartOf<E>(steps: seq<Step<E>>, m: nat, n: nat)
    requires m <= n <= |steps| && NotReady(steps, m, n)
    ensures Start(steps, n) == Start(steps, m)
  {
    if m < n {
      StartOf(steps, m, n - 1);
    }
  }
}
