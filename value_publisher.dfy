/** reactor.core.publisher.ValuePublisher: a publisher of at most one value.
    A null value completes every subscriber at once on the no-op
    subscription; otherwise each subscriber gets a one-shot subscription
    whose first request (or cancel) closes it for good, the request
    emitting the value and then completion. */
module Publisher {
  import opened Support

  /** The subscription a subscriber receives in onSubscribe. */
  datatype Handle = NoopSubscription | OneShot

  /** A signal a subscriber receives. */
  datatype Signal<T> = OnSubscribe(handle: Handle) | OnNext(value: T) | OnComplete

  /** A call the subscriber makes on its one-shot subscription. */
  datatype Call = Request(elements: int) | Cancel

  /** The one-shot subscription's flag and the signals its subscriber has
      received so far. */
  datatype SubState<T> = SubState(terminado: bool, received: seq<Signal<T>>)

  function Step<T>(data: T, s: SubState<T>, c: Call): SubState<T>
  {
    match c
    case Request(_) =>
      if s.terminado then s else SubState(true, s.received + [OnNext(data), OnComplete])
    case Cancel => s.(terminado := true)
  }

  function Run<T>(data: T, s: SubState<T>, cs: seq<Call>): SubState<T>
    decreases |cs|
  {
    if cs == [] then s else Run(data, Step(data, s, cs[0]), cs[1..])
  }

  /** Everything a subscriber receives from subscribe(s) followed by the
      calls `cs` on the subscription it was given. */
  function Observed<T>(data: Option<T>, cs: seq<Call>): seq<Signal<T>>
  {
    match data
    case None => [OnSubscribe(NoopSubscription), OnComplete]
    case Some(v) => Run(v, SubState(false, [OnSubscribe(OneShot)]), cs).received
  }

  /** Once terminado is set, no call changes anything: requests after the
      first and repeated cancels are no-ops, and the flag stays set. */
  lemma {:induction false} ClosedSubscriptionIsInert<T>(data: T, s: SubState<T>, cs: seq<Call>)
    requires s.terminado
    ensures Run(data, s, cs) == s
    decreases |cs|
  {
    if cs != [] {
      ClosedSubscriptionIsInert(data, Step(data, s, cs[0]), cs[1..]);
    }
  }

  /** The first call on an open subscription decides everything: a request
      of any size delivers the value then completion, a cancel delivers
      nothing, ever. */
  lemma FirstCallDecides<T>(data: T, s: SubState<T>, cs: seq<Call>)
    requires !s.terminado
    ensures Run(data, s, cs).terminado == (cs != [])
    ensures Run(data, s, cs).received ==
            s.received + (if cs != [] && cs[0].Request? then [OnNext(data), OnComplete] else [])
  {
    if cs != [] {
      ClosedSubscriptionIsInert(data, Step(data, s, cs[0]), cs[1..]);
    }
  }

  /** What a subscriber observes: with null data, exactly onSubscribe(NOOP)
      then onComplete; otherwise onSubscribe, and, when its first call is a
      request, onNext(data) then onComplete. */
  lemma ObservedSignals<T>(data: Option<T>, cs: seq<Call>)
    ensures data.None? ==> Observed(data, cs) == [OnSubscribe(NoopSubscription), OnComplete]
    ensures data.Some? && cs != [] && cs[0].Request? ==>
              Observed(data, cs) == [OnSubscribe(OneShot), OnNext(data.value), OnComplete]
    ensures data.Some? && (cs == [] || cs[0].Cancel?) ==> Observed(data, cs) == [OnSubscribe(OneShot)]
  {
    if data.Some? {
      FirstCallDecides(data.value, SubState(false, [OnSubscribe(OneShot)]), cs);
    }
  }

  /** At most once: over any calls a subscriber sees at most one onNext, it
      carries the publisher's value, onComplete comes at most once and is
      the last signal, and onSubscribe comes first. */
  lemma AtMostOnce<T>(data: Option<T>, cs: seq<Call>)
    ensures var r := Observed(data, cs);
      && 1 <= |r| <= 3 && r[0].OnSubscribe?
      && (forall i :: 0 <= i < |r| && r[i].OnNext? ==> i == 1 && data == Some(r[i].value))
      && (forall i :: 0 <= i < |r| && r[i].OnComplete? ==> i == |r| - 1)
      && (forall i :: 0 < i < |r| ==> !r[i].OnSubscribe?)
  {
    ObservedSignals(data, cs);
  }

  /** A subscriber: the signals it has received. */
  class Subscriber<T> {
    var received: seq<Signal<T>>

    constructor ()
      ensures received == []
    {
      received := [];
    }
  }

  /** The anonymous Subscription that subscribe hands out for non-null data. */
  class OneShotSubscription<T> {
    const subscriber: Subscriber<T>
    const data: T
    var terminado: bool

    function Snapshot(): SubState<T>
      reads this, subscriber
    {
      SubState(terminado, subscriber.received)
    }

    constructor (subscriber: Subscriber<T>, data: T)
      ensures this.subscriber == subscriber && this.data == data && !terminado
    {
      this.subscriber := subscriber;
      this.data := data;
      terminado := false;
    }

    /** The first request, whatever its size, closes the subscription and
        delivers the value then completion; later ones do nothing. */
    method Request(elements: int)
      modifies this, subscriber
      ensures terminado
      ensures old(terminado) ==> subscriber.received == old(subscriber.received)
      ensures !old(terminado) ==> subscriber.received == old(subscriber.received) + [OnNext(data), OnComplete]
      ensures Snapshot() == Step(data, old(Snapshot()), Call.Request(elements))
    {
      if terminado {
        return;
      }
      terminado := true;
      subscriber.received := subscriber.received + [OnNext(data)];
      subscriber.received := subscriber.received + [OnComplete];
    }

    /** Closes the subscription without a signal. */
    method Cancel()
      modifies this
      ensures terminado
      ensures Snapshot() == Step(data, old(Snapshot()), Call.Cancel)
    {
      terminado := true;
    }
  }

  class ValuePublisher<T> {
    const data: Option<T>

    constructor (data: Option<T>)
      ensures this.data == data
    {
      this.data := data;
    }

    /** Supplier.get: the value given at construction. */
    method Get() returns (r: Option<T>)
      ensures r == data
    {
      r := data;
    }

    /** With null data: onSubscribe(NOOP) then onComplete, and no
        subscription is handed out. Otherwise: onSubscribe with a fresh,
        open one-shot subscription bound to this subscriber and value. */
    method Subscribe(s: Subscriber<T>) returns (sub: OneShotSubscription?<T>)
      modifies s
      ensures data.None? ==> sub == null && s.received == old(s.received) + [OnSubscribe(NoopSubscription), OnComplete]
      ensures data.Some? ==> sub != null && fresh(sub) && sub.subscriber == s && sub.data == data.value
      ensures data.Some? ==> sub.Snapshot() == SubState(false, old(s.received) + [OnSubscribe(OneShot)])
    {
      if data.None? {
        s.received := s.received + [OnSubscribe(NoopSubscription)];
        s.received := s.received + [OnComplete];
        return null;
      }
      sub := new OneShotSubscription(s, data.value);
      s.received := s.received + [OnSubscribe(OneShot)];
    }
  }
}
