/**
 * The per-sink queues of driver events waiting to be injected: one FIFO per
 * host-side event sink, created on first push and never removed.
 */
module InjectionQueues {

  /** The host-side event sink an event is queued for (an opaque pointer). */
  type SinkRef = nat

  /** A shared pointer to an event payload; 0 is the empty pointer. */
  type EventRef = nat

  const NullEvent: EventRef := 0

  /** A queued (payload, size) pair. */
  datatype InjectedEvent = InjectedEvent(event: EventRef, size: nat)

  /** What a poll of an unknown sink or an empty queue yields: the empty pointer and size 0. */
  const NoEvent := InjectedEvent(NullEvent, 0)

  type QueueMap = map<SinkRef, seq<InjectedEvent>>

  /** The events pending for `sink`, oldest first; a sink never pushed to has none. */
  function QueueOf(qs: QueueMap, sink: SinkRef): (pending: seq<InjectedEvent>)
  {
    if sink in qs then qs[sink] else []
  }

  /** Pushing appends to the sink's queue (creating it if needed) and touches no other sink. */
  function Push(qs: QueueMap, sink: SinkRef, e: InjectedEvent): (r: QueueMap)
    ensures r.Keys == qs.Keys + {sink}
    ensures QueueOf(r, sink) == QueueOf(qs, sink) + [e]
    ensures forall s :: s != sink ==> QueueOf(r, s) == QueueOf(qs, s)
  {
    qs[sink := QueueOf(qs, sink) + [e]]
  }

  /**
   * Popping yields the oldest event of the sink's queue and removes exactly
   * that one; an unknown sink or an empty queue yields NoEvent and leaves the
   * map as it is.
   */
  function Pop(qs: QueueMap, sink: SinkRef): (r: (InjectedEvent, QueueMap))
    ensures QueueOf(qs, sink) == [] ==> r == (NoEvent, qs)
    ensures QueueOf(qs, sink) != [] ==>
              && r.0 == QueueOf(qs, sink)[0]
              && QueueOf(r.1, sink) == QueueOf(qs, sink)[1..]
              && r.1.Keys == qs.Keys
    ensures forall s :: s != sink ==> QueueOf(r.1, s) == QueueOf(qs, s)
  {
    if sink in qs && |qs[sink]| > 0 then
      (qs[sink][0], qs[sink := qs[sink][1..]])
    else
      (NoEvent, qs)
  }

  /** The queue map after pushing `es` for `sink`, one after the other. */
  function PushAll(qs: QueueMap, sink: SinkRef, es: seq<InjectedEvent>): (after: QueueMap)
    decreases |es|
  {
    if es == [] then qs else PushAll(Push(qs, sink, es[0]), sink, es[1..])
  }

  /** The events obtained by polling `sink` n times. */
  function PopMany(qs: QueueMap, sink: SinkRef, n: nat): (polled: seq<InjectedEvent>)
  {
    if n == 0 then [] else
      var (e, rest) := Pop(qs, sink);
      [e] + PopMany(rest, sink, n - 1)
  }

  /** Pushing a sequence appends it, in order, to the sink's queue and leaves the other sinks alone. */
  lemma {:induction false} PushAllAppends(qs: QueueMap, sink: SinkRef, es: seq<InjectedEvent>)
    ensures QueueOf(PushAll(qs, sink, es), sink) == QueueOf(qs, sink) + es
    ensures forall s :: s != sink ==> QueueOf(PushAll(qs, sink, es), s) == QueueOf(qs, s)
    decreases |es|
  {
    if es != [] {
      var next := Push(qs, sink, es[0]);
      PushAllAppends(next, sink, es[1..]);
      assert QueueOf(qs, sink) + es == QueueOf(next, sink) + es[1..];
    }
  }

  /** Polling n times yields the n oldest pending events, oldest first. */
  lemma {:induction false} PopManyTakesOldest(qs: QueueMap, sink: SinkRef, n: nat)
    requires n <= |QueueOf(qs, sink)|
    ensures PopMany(qs, sink, n) == QueueOf(qs, sink)[..n]
  {
    if n > 0 {
      var (e, rest) := Pop(qs, sink);
      PopManyTakesOldest(rest, sink, n - 1);
      assert QueueOf(qs, sink)[..n] == [e] + QueueOf(rest, sink)[..n - 1];
    }
  }

  /** First in, first out: events come out of a sink's queue in the order they were pushed, after those already pending. */
  lemma {:induction false} Fifo(qs: QueueMap, sink: SinkRef, es: seq<InjectedEvent>)
    ensures PopMany(PushAll(qs, sink, es), sink, |QueueOf(qs, sink)| + |es|) == QueueOf(qs, sink) + es
  {
    var after := PushAll(qs, sink, es);
    PushAllAppends(qs, sink, es);
    PopManyTakesOldest(after, sink, |QueueOf(qs, sink)| + |es|);
    assert QueueOf(after, sink)[..|QueueOf(qs, sink)| + |es|] == QueueOf(after, sink);
  }

}
