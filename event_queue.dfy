/**
 * The deferred-event queue of the event-loop bridge, as values. The window
 * keeps a vector of events: key handling pushes onto its end, and every wake
 * first hands the engine an empty batch (a flush of its own queue) and then
 * pops at most one event from the end and hands it over as a batch of one.
 * The vector is therefore an unbounded stack, and events pushed faster than
 * wakes arrive are delivered newest first.
 */
module EventQueue {

  /** The queue left by a wake and the batches it handed to the engine, in order. */
  datatype WakeResult<T> = WakeResult(queue: seq<T>, batches: seq<seq<T>>)

  /** All events of a sequence of batches, in delivery order. */
  function Flatten<T>(batches: seq<seq<T>>): seq<T> {
    if batches == [] then [] else batches[0] + Flatten(batches[1..])
  }

  lemma {:induction false} FlattenAppend<T>(a: seq<seq<T>>, b: seq<seq<T>>)
    ensures Flatten(a + b) == Flatten(a) + Flatten(b)
  {
    if a == [] {
      assert a + b == b;
    } else {
      assert (a + b)[1..] == a[1..] + b;
      FlattenAppend(a[1..], b);
    }
  }

  /** The batches of a wake that pops `e` hold exactly `e`. */
  lemma FlattenPopped<T>(e: T)
    ensures Flatten([[], [e]]) == [e]
  {
    var b: seq<seq<T>> := [[], [e]];
    assert b[1..] == [[e]];
    assert [[e]][1..] == [];
    assert Flatten<T>([[e]]) == [e] + Flatten<T>([]);
    assert Flatten(b) == [] + Flatten(b[1..]);
  }

  /**
   * One wake. It always starts with the empty flush batch and delivers at most
   * one event; the event it delivers, put back after the remaining queue,
   * gives the queue it started from.
   */
  function Wake<T>(q: seq<T>): (r: WakeResult<T>)
    ensures |r.batches| >= 1 && r.batches[0] == []
    ensures r.queue + Flatten(r.batches) == q
    ensures |Flatten(r.batches)| == if q == [] then 0 else 1
    ensures forall i :: 1 <= i < |r.batches| ==> |r.batches[i]| == 1
  {
    if q == [] then WakeResult([], [[]])
    else
      var r := WakeResult(q[..|q| - 1], [[], [q[|q| - 1]]]);
      FlattenPopped(q[|q| - 1]);
      r
  }

  /** `n` wakes in a row with nothing pushed in between. */
  function Wakes<T>(q: seq<T>, n: nat): WakeResult<T> {
    if n == 0 then WakeResult(q, [])
    else
      var first := Wake(q);
      var rest := Wakes(first.queue, n - 1);
      WakeResult(rest.queue, first.batches + rest.batches)
  }

  function Reverse<T>(s: seq<T>): seq<T> {
    if s == [] then [] else Reverse(s[1..]) + [s[0]]
  }

  lemma {:induction false} ReverseSnoc<T>(s: seq<T>, x: T)
    ensures Reverse(s + [x]) == [x] + Reverse(s)
  {
    if s == [] {
      assert s + [x] == [x];
    } else {
      assert (s + [x])[1..] == s[1..] + [x];
      ReverseSnoc(s[1..], x);
    }
  }

  /** The newest event is the one delivered; the older ones stay queued, untouched. */
  lemma PushThenWake<T>(q: seq<T>, e: T)
    ensures Wake(q + [e]) == WakeResult(q, [[], [e]])
  {
  }

  /** A wake with an empty queue only flushes. */
  lemma WakeOnEmpty<T>()
    ensures Wake<T>([]) == WakeResult([], [[]])
  {
  }

  /**
   * Waking once per queued event empties the queue; the engine receives two
   * batches per wake, and the events arrive in the reverse of the order in
   * which they were pushed.
   */
  lemma {:induction false} DrainReverses<T>(q: seq<T>)
    ensures Wakes(q, |q|).queue == []
    ensures |Wakes(q, |q|).batches| == 2 * |q|
    ensures Flatten(Wakes(q, |q|).batches) == Reverse(q)
  {
    if q != [] {
      var last := q[|q| - 1];
      var front := q[..|q| - 1];
      assert q == front + [last];
      PushThenWake(front, last);
      DrainReverses(front);
      var rest := Wakes(front, |front|);
      calc {
        Flatten(Wakes(q, |q|).batches);
        Flatten([[], [last]] + rest.batches);
        { FlattenAppend([[], [last]], rest.batches); }
        Flatten([[], [last]]) + Flatten(rest.batches);
        { FlattenPopped(last); }
        [last] + Reverse(front);
        { ReverseSnoc(front, last); }
        Reverse(q);
      }
    }
  }

  /**
   * Two events pushed before one wake: the second is delivered and the first
   * is still queued: the queue holds more than one pending event.
   */
  lemma SecondPushOvertakesFirst<T>(e1: T, e2: T)
    ensures Wake([e1, e2]) == WakeResult([e1], [[], [e2]])
  {
  }
}
