/** reactor.rx.action.control.RepeatWhenAction: the repeat controller behind
    `repeatWhen(...)`. Upstream completion does not complete downstream: the
    action cancels the upstream subscription and pushes a timestamp onto its
    trigger stream (`retryStream`). A user function has turned that stream
    into a derived publisher, observed by the inner RestartSubscriber with a
    standing demand of one: each of its Next signals re-subscribes the action
    to the fixed root publisher, its Error errors downstream and its Complete
    completes downstream. Demand requested from downstream is accumulated,
    saturating at Long.MAX_VALUE, and replayed on every new subscription.

    The `synchronized (this)` block is one atomic step here. Every call into
    code outside this class (Action, Broadcaster, the subscriptions, the root
    publisher) is recorded, in order, in an effect log; a call that throws is
    still recorded, followed by what the code does with the exception. */
module Control {
  import opened Support

  /** A Subscription object; only its identity matters. */
  datatype Subscription = Subscription(id: nat)

  /** The root publisher as stored: Publishers.trampoline(rootPublisher). */
  datatype Publisher = Trampoline(source: nat)

  /** Which unseen call, if any, throws during onComplete. */
  datatype Fault = NoFault | CancelThrows(cancelError: Throwable) | PushThrows(pushError: Throwable)

  /** One call the action or its RestartSubscriber makes outside their own fields. */
  datatype Effect<T> =
    | SubscribeRestart                             // afterRetryPublisher.subscribe(new RestartSubscriber())
    | BroadcastNext(value: T)                      // broadcastNext(ev)
    | CompleteRetryStream                          // retryStream.onComplete()
    | SuperDoComplete                              // super.doComplete()
    | SuperRequestMore(n: Demand)                  // super.requestMore(n)
    | RequestUpstream(sub: Subscription, n: Demand) // subscription.request(pendingRequests)
    | SubscribeRoot(root: Publisher)               // rootPublisher.subscribe(this)
    | CancelUpstream                               // cancel()
    | PushRetry(timestamp: int)                    // retryStream.onNext(System.currentTimeMillis())
    | DoError(cause: Throwable)                    // doError(e)
    | RequestTrigger(sub: Subscription, n: Demand) // s.request(1l)
    | CancelTrigger(sub: Subscription)             // s.cancel()
    | NullPointer                                  // a null rootPublisher or s dereferenced

  /** A method of the action or of its RestartSubscriber, called from outside. */
  datatype Call<T> =
    | RequestMore(n: Demand)
    | DoOnSubscribe(sub: Subscription)
    | DoNext(value: T)
    | OnComplete(timestamp: int, fault: Fault)
    | TriggerOnSubscribe(sub: Subscription)
    | TriggerOnNext
    | TriggerOnError(cause: Throwable)
    | TriggerOnComplete

  /** The action's pending demand and root publisher, the RestartSubscriber's
      subscription `s`, and the effect log. */
  datatype State<T> = State(
    pendingRequests: Demand,
    rootPublisher: Option<Publisher>,
    trigger: Option<Subscription>,
    effects: seq<Effect<T>>)

  /** doRetry: re-subscribe to the root publisher, or fail on a null one. */
  function RetryEffects<T>(root: Option<Publisher>): seq<Effect<T>>
  {
    if root.None? then [NullPointer] else [SubscribeRoot(root.value)]
  }

  /** The calls a call makes outside the object, in order. */
  function Added<T>(st: State<T>, c: Call<T>): seq<Effect<T>>
  {
    match c
    case RequestMore(n) => [SuperRequestMore(n)]
    case DoOnSubscribe(sub) =>
      if st.pendingRequests > 0 then [RequestUpstream(sub, st.pendingRequests)] else []
    case DoNext(v) => [BroadcastNext(v)]
    case OnComplete(ts, fault) =>
      (match fault
       case NoFault => [CancelUpstream, PushRetry(ts)]
       case CancelThrows(e) => [CancelUpstream, DoError(e)]
       case PushThrows(e) => [CancelUpstream, PushRetry(ts), DoError(e)])
    case TriggerOnSubscribe(sub) => [RequestTrigger(sub, 1)]
    case TriggerOnNext =>
      RetryEffects(st.rootPublisher)
      + (if st.rootPublisher.None? then []
         else if st.trigger.None? then [NullPointer]
         else [RequestTrigger(st.trigger.value, 1)])
    case TriggerOnError(e) =>
      if st.trigger.None? then [NullPointer] else [CancelTrigger(st.trigger.value), DoError(e)]
    case TriggerOnComplete =>
      if st.trigger.None? then [NullPointer]
      else [CancelTrigger(st.trigger.value), CompleteRetryStream, SuperDoComplete]
  }

  function Step<T>(st: State<T>, c: Call<T>): State<T>
  {
    var st' := st.(effects := st.effects + Added(st, c));
    match c
    case RequestMore(n) => st'.(pendingRequests := AddOrLongMax(st.pendingRequests, n))
    case TriggerOnSubscribe(sub) => st'.(trigger := Some(sub))
    case _ => st'
  }

  function Run<T>(st: State<T>, cs: seq<Call<T>>): State<T>
    decreases |cs|
  {
    if cs == [] then st else Run(Step(st, cs[0]), cs[1..])
  }

  /** The demands of the requestMore calls of a trace, in order. */
  function Demands<T>(cs: seq<Call<T>>): seq<Demand>
  {
    if cs == [] then [] else (if cs[0].RequestMore? then [cs[0].n] else []) + Demands(cs[1..])
  }

  /** The values of the doNext calls of a trace, in order. */
  function NextValues<T>(cs: seq<Call<T>>): seq<T>
  {
    if cs == [] then [] else (if cs[0].DoNext? then [cs[0].value] else []) + NextValues(cs[1..])
  }

  /** How many trigger Nexts a trace delivers. */
  function TriggerNexts<T>(cs: seq<Call<T>>): nat
  {
    if cs == [] then 0 else (if cs[0].TriggerOnNext? then 1 else 0) + TriggerNexts(cs[1..])
  }

  /** How many trigger Completes a trace delivers. */
  function TriggerCompletes<T>(cs: seq<Call<T>>): nat
  {
    if cs == [] then 0 else (if cs[0].TriggerOnComplete? then 1 else 0) + TriggerCompletes(cs[1..])
  }

  /** The values broadcast downstream, in order. */
  function Broadcasts<T>(es: seq<Effect<T>>): seq<T>
  {
    if es == [] then [] else (if es[0].BroadcastNext? then [es[0].value] else []) + Broadcasts(es[1..])
  }

  /** The total demand requested from the trigger publisher. */
  function TriggerDemand<T>(es: seq<Effect<T>>): int
  {
    if es == [] then 0 else (if es[0].RequestTrigger? then es[0].n else 0) + TriggerDemand(es[1..])
  }

  /** How many times downstream was completed. */
  function Completions<T>(es: seq<Effect<T>>): nat
  {
    if es == [] then 0 else (if es[0].SuperDoComplete? then 1 else 0) + Completions(es[1..])
  }

  lemma {:induction false} EffectsAppend<T>(a: seq<Effect<T>>, b: seq<Effect<T>>)
    ensures Broadcasts(a + b) == Broadcasts(a) + Broadcasts(b)
    ensures TriggerDemand(a + b) == TriggerDemand(a) + TriggerDemand(b)
    ensures Completions(a + b) == Completions(a) + Completions(b)
    decreases |a|
  {
    if a == [] {
      assert a + b == b;
    } else {
      assert (a + b)[0] == a[0] && (a + b)[1..] == a[1..] + b;
      EffectsAppend(a[1..], b);
    }
  }

  lemma CountersOne<T>(e: Effect<T>)
    ensures Broadcasts([e]) == (if e.BroadcastNext? then [e.value] else [])
    ensures TriggerDemand([e]) == (if e.RequestTrigger? then e.n else 0)
    ensures Completions([e]) == (if e.SuperDoComplete? then 1 else 0)
  {
    assert [e][1..] == [];
  }

  lemma CountersTwo<T>(x: Effect<T>, y: Effect<T>)
    ensures Broadcasts([x, y]) == Broadcasts([x]) + Broadcasts([y])
    ensures TriggerDemand([x, y]) == TriggerDemand([x]) + TriggerDemand([y])
    ensures Completions([x, y]) == Completions([x]) + Completions([y])
  {
    assert [x, y] == [x] + [y];
    EffectsAppend([x], [y]);
  }

  lemma CountersThree<T>(x: Effect<T>, y: Effect<T>, z: Effect<T>)
    ensures Broadcasts([x, y, z]) == Broadcasts([x]) + Broadcasts([y]) + Broadcasts([z])
    ensures TriggerDemand([x, y, z]) == TriggerDemand([x]) + TriggerDemand([y]) + TriggerDemand([z])
    ensures Completions([x, y, z]) == Completions([x]) + Completions([y]) + Completions([z])
  {
    assert [x, y, z] == [x] + [y, z];
    EffectsAppend([x], [y, z]);
    CountersTwo(y, z);
  }

  /** What one call adds, as seen by the three counters. */
  lemma AddedCounts<T>(st: State<T>, c: Call<T>)
    ensures Broadcasts(Added(st, c)) == (if c.DoNext? then [c.value] else [])
    ensures Completions(Added(st, c)) == (if c.TriggerOnComplete? && st.trigger.Some? then 1 else 0)
    ensures TriggerDemand(Added(st, c)) ==
            (if c.TriggerOnSubscribe? then 1
             else if c.TriggerOnNext? && st.rootPublisher.Some? && st.trigger.Some? then 1
             else 0)
  {
    match c
    case RequestMore(n) => CountersOne<T>(SuperRequestMore(n));
    case DoOnSubscribe(sub) =>
      if st.pendingRequests > 0 {
        CountersOne<T>(RequestUpstream(sub, st.pendingRequests));
      }
    case DoNext(v) => CountersOne(BroadcastNext(v));
    case OnComplete(ts, fault) =>
      CountersOne<T>(CancelUpstream);
      CountersOne<T>(PushRetry(ts));
      match fault {
        case NoFault => CountersTwo<T>(CancelUpstream, PushRetry(ts));
        case CancelThrows(e) =>
          CountersOne<T>(DoError(e));
          CountersTwo<T>(CancelUpstream, DoError(e));
        case PushThrows(e) =>
          CountersOne<T>(DoError(e));
          CountersThree<T>(CancelUpstream, PushRetry(ts), DoError(e));
      }
    case TriggerOnSubscribe(sub) => CountersOne<T>(RequestTrigger(sub, 1));
    case TriggerOnNext =>
      CountersOne<T>(NullPointer);
      if st.rootPublisher.Some? {
        var r := st.rootPublisher.value;
        CountersOne<T>(SubscribeRoot(r));
        if st.trigger.None? {
          CountersTwo<T>(SubscribeRoot(r), NullPointer);
        } else {
          CountersOne<T>(RequestTrigger(st.trigger.value, 1));
          CountersTwo<T>(SubscribeRoot(r), RequestTrigger(st.trigger.value, 1));
        }
      }
    case TriggerOnError(e) =>
      CountersOne<T>(NullPointer);
      if st.trigger.Some? {
        CountersOne<T>(CancelTrigger(st.trigger.value));
        CountersOne<T>(DoError(e));
        CountersTwo<T>(CancelTrigger(st.trigger.value), DoError(e));
      }
    case TriggerOnComplete =>
      CountersOne<T>(NullPointer);
      if st.trigger.Some? {
        CountersOne<T>(CancelTrigger(st.trigger.value));
        CountersOne<T>(CompleteRetryStream);
        CountersOne<T>(SuperDoComplete);
        CountersThree<T>(CancelTrigger(st.trigger.value), CompleteRetryStream, SuperDoComplete);
      }
  }

  lemma {:induction false} EffectsOnlyGrow<T>(st: State<T>, cs: seq<Call<T>>)
    ensures st.effects <= Run(st, cs).effects
    ensures Run(st, cs).rootPublisher == st.rootPublisher
    decreases |cs|
  {
    if cs != [] {
      EffectsOnlyGrow(Step(st, cs[0]), cs[1..]);
    }
  }

  /** requestMore accumulates: after any trace the pending count is the
      saturating sum of the old count and every demand requested, so it never
      decreases, never exceeds Long.MAX_VALUE and never wraps. */
  lemma {:induction false} PendingIsSaturatedSum<T>(st: State<T>, cs: seq<Call<T>>)
    ensures Run(st, cs).pendingRequests == AddAllOrLongMax(st.pendingRequests, Demands(cs))
    ensures Run(st, cs).pendingRequests == Min(st.pendingRequests + Sum(Demands(cs)), LONG_MAX)
    ensures st.pendingRequests <= Run(st, cs).pendingRequests
    decreases |cs|
  {
    if cs != [] {
      PendingIsSaturatedSum(Step(st, cs[0]), cs[1..]);
      if cs[0].RequestMore? {
        assert Demands(cs) == [cs[0].n] + Demands(cs[1..]);
        assert ([cs[0].n] + Demands(cs[1..]))[1..] == Demands(cs[1..]);
      } else {
        assert Demands(cs) == Demands(cs[1..]);
      }
    }
    AddAllOrLongMaxIsClampedSum(st.pendingRequests, Demands(cs));
  }

  /** doOnSubscribe replays the accumulated demand: a new subscription is
      asked for exactly pendingRequests when it is positive, otherwise for
      nothing; after requests `ns` from a fresh action that is their
      saturating sum. */
  lemma ReplayOnSubscribe<T>(st: State<T>, cs: seq<Call<T>>, sub: Subscription)
    ensures var r := Run(st, cs); var p := Min(st.pendingRequests + Sum(Demands(cs)), LONG_MAX);
      Step(r, DoOnSubscribe(sub)).effects == r.effects + (if p > 0 then [RequestUpstream(sub, p)] else [])
  {
    PendingIsSaturatedSum(st, cs);
  }

  /** Every re-subscription targets the root publisher fixed at
      construction, and nothing changes that reference. */
  lemma {:induction false} ResubscribeTargetsRoot<T>(st: State<T>, cs: seq<Call<T>>)
    ensures Run(st, cs).rootPublisher == st.rootPublisher
    ensures st.effects <= Run(st, cs).effects
    ensures forall i :: |st.effects| <= i < |Run(st, cs).effects| && Run(st, cs).effects[i].SubscribeRoot? ==>
              st.rootPublisher == Some(Run(st, cs).effects[i].root)
    decreases |cs|
  {
    if cs != [] {
      var t := Step(st, cs[0]);
      ResubscribeTargetsRoot(t, cs[1..]);
      var a := Added(st, cs[0]);
      assert t.effects == st.effects + a;
      forall i | 0 <= i < |a| && a[i].SubscribeRoot?
        ensures st.rootPublisher == Some(a[i].root)
      {
        if cs[0].TriggerOnNext? {
          var k := |RetryEffects<T>(st.rootPublisher)|;
          assert a == RetryEffects(st.rootPublisher) + a[k..];
        }
      }
    }
  }

  /** How many times the action subscribed itself to the root publisher. */
  function Resubscriptions<T>(es: seq<Effect<T>>): nat
  {
    if es == [] then 0 else (if es[0].SubscribeRoot? then 1 else 0) + Resubscriptions(es[1..])
  }

  /** How many NullPointerExceptions were raised. */
  function NullPointers<T>(es: seq<Effect<T>>): nat
  {
    if es == [] then 0 else (if es[0].NullPointer? then 1 else 0) + NullPointers(es[1..])
  }

  lemma {:induction false} RetryCountersAppend<T>(a: seq<Effect<T>>, b: seq<Effect<T>>)
    ensures Resubscriptions(a + b) == Resubscriptions(a) + Resubscriptions(b)
    ensures NullPointers(a + b) == NullPointers(a) + NullPointers(b)
    decreases |a|
  {
    if a == [] {
      assert a + b == b;
    } else {
      assert (a + b)[0] == a[0] && (a + b)[1..] == a[1..] + b;
      RetryCountersAppend(a[1..], b);
    }
  }

  /** Resubscriptions and NullPointers of a log of at most three entries. */
  lemma RetryCountersSmall<T>(x: Effect<T>, y: Effect<T>, z: Effect<T>)
    ensures Resubscriptions([x]) == (if x.SubscribeRoot? then 1 else 0)
    ensures NullPointers([x]) == (if x.NullPointer? then 1 else 0)
    ensures Resubscriptions([x, y]) == Resubscriptions([x]) + Resubscriptions([y])
    ensures NullPointers([x, y]) == NullPointers([x]) + NullPointers([y])
    ensures Resubscriptions([x, y, z]) == Resubscriptions([x]) + Resubscriptions([y, z])
    ensures NullPointers([x, y, z]) == NullPointers([x]) + NullPointers([y, z])
  {
    assert [x][1..] == [];
    assert [x, y] == [x] + [y];
    RetryCountersAppend([x], [y]);
    assert [x, y, z] == [x] + [y, z];
    RetryCountersAppend([x], [y, z]);
  }

  /** Only a trigger Next subscribes to the root publisher, once; with a null
      root it raises exactly one NullPointerException instead. */
  lemma AddedResubscriptions<T>(st: State<T>, c: Call<T>)
    ensures Resubscriptions(Added(st, c)) == (if c.TriggerOnNext? && st.rootPublisher.Some? then 1 else 0)
    ensures c.TriggerOnNext? && st.rootPublisher.None? ==> NullPointers(Added(st, c)) == 1
  {
    match c
    case RequestMore(n) => RetryCountersSmall<T>(SuperRequestMore(n), NullPointer, NullPointer);
    case DoOnSubscribe(sub) =>
      if st.pendingRequests > 0 {
        RetryCountersSmall<T>(RequestUpstream(sub, st.pendingRequests), NullPointer, NullPointer);
      }
    case DoNext(v) => RetryCountersSmall<T>(BroadcastNext(v), NullPointer, NullPointer);
    case OnComplete(ts, fault) =>
      match fault {
        case NoFault =>
          RetryCountersSmall<T>(CancelUpstream, PushRetry(ts), NullPointer);
          RetryCountersSmall<T>(PushRetry(ts), NullPointer, NullPointer);
        case CancelThrows(e) =>
          RetryCountersSmall<T>(CancelUpstream, DoError(e), NullPointer);
          RetryCountersSmall<T>(DoError(e), NullPointer, NullPointer);
        case PushThrows(e) =>
          RetryCountersSmall<T>(CancelUpstream, PushRetry(ts), DoError(e));
          RetryCountersSmall<T>(PushRetry(ts), DoError(e), NullPointer);
          RetryCountersSmall<T>(DoError(e), NullPointer, NullPointer);
      }
    case TriggerOnSubscribe(sub) => RetryCountersSmall<T>(RequestTrigger(sub, 1), NullPointer, NullPointer);
    case TriggerOnNext =>
      if st.rootPublisher.None? {
        RetryCountersSmall<T>(NullPointer, NullPointer, NullPointer);
        assert Added(st, c) == [NullPointer];
      } else {
        var r := st.rootPublisher.value;
        if st.trigger.None? {
          RetryCountersSmall<T>(SubscribeRoot(r), NullPointer, NullPointer);
          RetryCountersSmall<T>(NullPointer, NullPointer, NullPointer);
          assert Added(st, c) == [SubscribeRoot(r), NullPointer];
        } else {
          var q := RequestTrigger(st.trigger.value, 1);
          RetryCountersSmall<T>(SubscribeRoot(r), q, NullPointer);
          RetryCountersSmall<T>(q, NullPointer, NullPointer);
          assert Added(st, c) == [SubscribeRoot(r), q];
        }
      }
    case TriggerOnError(e) =>
      if st.trigger.None? {
        RetryCountersSmall<T>(NullPointer, NullPointer, NullPointer);
      } else {
        RetryCountersSmall<T>(CancelTrigger(st.trigger.value), DoError(e), NullPointer);
        RetryCountersSmall<T>(DoError(e), NullPointer, NullPointer);
      }
    case TriggerOnComplete =>
      if st.trigger.None? {
        RetryCountersSmall<T>(NullPointer, NullPointer, NullPointer);
      } else {
        RetryCountersSmall<T>(CancelTrigger(st.trigger.value), CompleteRetryStream, SuperDoComplete);
        RetryCountersSmall<T>(CompleteRetryStream, SuperDoComplete, NullPointer);
        RetryCountersSmall<T>(SuperDoComplete, NullPointer, NullPointer);
      }
  }

  /** Each trigger Next re-subscribes the action to the root publisher
      exactly once, and nothing else does; with a null root no
      re-subscription happens and each Next raises a NullPointerException. */
  lemma {:induction false} ResubscribeOncePerTriggerNext<T>(st: State<T>, cs: seq<Call<T>>)
    ensures Resubscriptions(Run(st, cs).effects) ==
            Resubscriptions(st.effects) + (if st.rootPublisher.Some? then TriggerNexts(cs) else 0)
    ensures st.rootPublisher.None? ==>
            NullPointers(Run(st, cs).effects) >= NullPointers(st.effects) + TriggerNexts(cs)
    decreases |cs|
  {
    if cs != [] {
      var t := Step(st, cs[0]);
      RetryCountersAppend(st.effects, Added(st, cs[0]));
      AddedResubscriptions(st, cs[0]);
      assert t.rootPublisher == st.rootPublisher;
      ResubscribeOncePerTriggerNext(t, cs[1..]);
    }
  }

  /** doNext forwards each value unchanged and in order; nothing else is
      ever broadcast. */
  lemma {:induction false} NextValuesForwarded<T>(st: State<T>, cs: seq<Call<T>>)
    ensures Broadcasts(Run(st, cs).effects) == Broadcasts(st.effects) + NextValues(cs)
    decreases |cs|
  {
    if cs != [] {
      var t := Step(st, cs[0]);
      EffectsAppend(st.effects, Added(st, cs[0]));
      AddedCounts(st, cs[0]);
      NextValuesForwarded(t, cs[1..]);
    }
  }

  ghost predicate NoTriggerResubscribe<T>(cs: seq<Call<T>>)
  {
    forall i :: 0 <= i < |cs| ==> !cs[i].TriggerOnSubscribe?
  }

  /** Request-one discipline: once the trigger subscription is set and the
      root publisher exists, each trigger Next asks for exactly one more, so
      the demand outstanding on the trigger publisher stays what it was. */
  lemma {:induction false} TriggerDemandReplenished<T>(st: State<T>, cs: seq<Call<T>>)
    requires st.rootPublisher.Some? && st.trigger.Some?
    requires NoTriggerResubscribe(cs)
    ensures TriggerDemand(Run(st, cs).effects) == TriggerDemand(st.effects) + TriggerNexts(cs)
    ensures Run(st, cs).trigger == st.trigger
    decreases |cs|
  {
    if cs != [] {
      var t := Step(st, cs[0]);
      EffectsAppend(st.effects, Added(st, cs[0]));
      AddedCounts(st, cs[0]);
      assert NoTriggerResubscribe(cs[1..]) by {
        forall i | 0 <= i < |cs[1..]| ensures !cs[1..][i].TriggerOnSubscribe? {
          assert cs[1..][i] == cs[i + 1];
        }
      }
      TriggerDemandReplenished(t, cs[1..]);
    }
  }

  /** Whatever the root publisher and the subscription `s`, calls other
      than onSubscribe request at most one trigger per trigger Next: with a
      null root, each Next fails before `s.request(1l)`. */
  lemma {:induction false} TriggerDemandAtMostNexts<T>(st: State<T>, cs: seq<Call<T>>)
    requires NoTriggerResubscribe(cs)
    ensures TriggerDemand(Run(st, cs).effects) <= TriggerDemand(st.effects) + TriggerNexts(cs)
    decreases |cs|
  {
    if cs != [] {
      var t := Step(st, cs[0]);
      EffectsAppend(st.effects, Added(st, cs[0]));
      AddedCounts(st, cs[0]);
      assert NoTriggerResubscribe(cs[1..]) by {
        forall i | 0 <= i < |cs[1..]| ensures !cs[1..][i].TriggerOnSubscribe? {
          assert cs[1..][i] == cs[i + 1];
        }
      }
      TriggerDemandAtMostNexts(t, cs[1..]);
    }
  }

  /** The RestartSubscriber asks for one on subscribe and at most one after
      each Next, so the trigger demand requested minus the Nexts received
      never exceeds 1 whatever the trace: trigger signals never pile up.
      With a root publisher it is exactly 1. */
  lemma OutstandingTriggerDemandIsOne<T>(st: State<T>, sub: Subscription, cs: seq<Call<T>>)
    requires NoTriggerResubscribe(cs)
    ensures var r := Run(st, [TriggerOnSubscribe(sub)] + cs);
      TriggerDemand(r.effects) - TriggerDemand(st.effects) - TriggerNexts(cs) <= 1
    ensures var r := Run(st, [TriggerOnSubscribe(sub)] + cs);
      st.rootPublisher.Some? ==> TriggerDemand(r.effects) - TriggerDemand(st.effects) - TriggerNexts(cs) == 1
  {
    var t := Step(st, TriggerOnSubscribe(sub));
    EffectsAppend(st.effects, Added(st, TriggerOnSubscribe(sub)));
    AddedCounts(st, TriggerOnSubscribe(sub));
    assert ([TriggerOnSubscribe(sub)] + cs)[0] == TriggerOnSubscribe(sub);
    assert ([TriggerOnSubscribe(sub)] + cs)[1..] == cs;
    TriggerDemandAtMostNexts(t, cs);
    if st.rootPublisher.Some? {
      TriggerDemandReplenished(t, cs);
    }
  }

  /** Upstream completion never completes downstream: with the trigger
      subscription set, downstream is completed exactly once per trigger
      Complete, and the retry stream is completed just before. */
  lemma {:induction false} CompletionOnlyFromTrigger<T>(st: State<T>, cs: seq<Call<T>>)
    requires st.trigger.Some?
    ensures Completions(Run(st, cs).effects) == Completions(st.effects) + TriggerCompletes(cs)
    ensures Run(st, cs).trigger.Some?
    decreases |cs|
  {
    if cs != [] {
      var t := Step(st, cs[0]);
      EffectsAppend(st.effects, Added(st, cs[0]));
      AddedCounts(st, cs[0]);
      CompletionOnlyFromTrigger(t, cs[1..]);
    }
  }

  /** The RestartSubscriber's Error and Complete both cancel the trigger
      subscription first; Error then errors downstream, Complete completes
      the retry stream and then downstream. Upstream completion cancels the
      upstream, then pushes the timestamp; an exception from either goes to
      doError. */
  lemma TerminalSignalsInOrder<T>(st: State<T>, e: Throwable, ts: int, fault: Fault)
    requires st.trigger.Some?
    ensures Added(st, TriggerOnError(e)) == [CancelTrigger(st.trigger.value), DoError(e)]
    ensures Added(st, TriggerOnComplete) ==
            [CancelTrigger(st.trigger.value), CompleteRetryStream, SuperDoComplete]
    ensures var a := Added(st, OnComplete(ts, fault));
      && a[0] == CancelUpstream
      && (fault.NoFault? ==> a == [CancelUpstream, PushRetry(ts)])
      && (!fault.NoFault? ==> a[|a| - 1] == DoError(if fault.CancelThrows? then fault.cancelError else fault.pushError))
      && (forall i :: 0 <= i < |a| ==> !a[i].SuperDoComplete?)
  {
  }

  /** The action itself. */
  class RepeatWhenAction<T> {
    const rootPublisher: Option<Publisher>
    var pendingRequests: Demand
    var effects: seq<Effect<T>>
    /** The subscriber handed to the derived trigger publisher. */
    var restart: RestartSubscriber?<T>

    ghost predicate Valid()
      reads this, restart
    {
      restart != null && restart.outer == this
    }

    function Snapshot(): State<T>
      reads this, restart
      requires Valid()
    {
      State(pendingRequests, rootPublisher, restart.s, effects)
    }

    /** The root publisher is wrapped with Publishers.trampoline unless it is
        null; the RestartSubscriber is subscribed to the derived publisher. */
    constructor (root: Option<nat>)
      ensures Valid() && fresh(restart)
      ensures rootPublisher == (if root.Some? then Some(Trampoline(root.value)) else None)
      ensures Snapshot() == State(0, rootPublisher, None, [SubscribeRestart])
    {
      rootPublisher := if root.Some? then Some(Trampoline(root.value)) else None;
      pendingRequests := 0;
      effects := [];
      restart := null;
      new;
      restart := new RestartSubscriber(this);
      effects := effects + [SubscribeRestart];
    }

    method DoNext(ev: T)
      requires Valid()
      modifies this
      ensures Valid() && unchanged(this`pendingRequests, this`restart)
      ensures effects == old(effects) + [BroadcastNext(ev)]
      ensures Snapshot() == Step(old(Snapshot()), Call.DoNext(ev))
    {
      effects := effects + [BroadcastNext(ev)];
    }

    /** Completes the retry stream, then downstream. */
    method DoComplete()
      modifies this
      ensures unchanged(this`pendingRequests, this`restart)
      ensures effects == old(effects) + [CompleteRetryStream, SuperDoComplete]
    {
      effects := effects + [CompleteRetryStream];
      effects := effects + [SuperDoComplete];
    }

    method RequestMore(n: Demand)
      requires Valid()
      modifies this
      ensures Valid() && unchanged(this`restart) && old(pendingRequests) <= pendingRequests
      ensures pendingRequests == Min(old(pendingRequests) + n, LONG_MAX)
      ensures effects == old(effects) + [SuperRequestMore(n)]
      ensures Snapshot() == Step(old(Snapshot()), Call.RequestMore(n))
    {
      pendingRequests := AddOrLongMax(pendingRequests, n);
      effects := effects + [SuperRequestMore(n)];
    }

    method DoOnSubscribe(subscription: Subscription)
      requires Valid()
      modifies this
      ensures Valid() && unchanged(this`pendingRequests, this`restart)
      ensures effects == old(effects) +
              (if pendingRequests > 0 then [RequestUpstream(subscription, pendingRequests)] else [])
      ensures Snapshot() == Step(old(Snapshot()), Call.DoOnSubscribe(subscription))
    {
      var pending := pendingRequests;
      if pending > 0 {
        effects := effects + [RequestUpstream(subscription, pending)];
      }
    }

    /** rootPublisher.subscribe(this); `threw` reports the
        NullPointerException of a null root publisher. */
    method DoRetry() returns (threw: bool)
      modifies this
      ensures unchanged(this`pendingRequests, this`restart)
      ensures threw == rootPublisher.None?
      ensures effects == old(effects) + RetryEffects(rootPublisher)
    {
      if rootPublisher.None? {
        effects := effects + [NullPointer];
        return true;
      }
      effects := effects + [SubscribeRoot(rootPublisher.value)];
      return false;
    }

    /** Upstream completion: cancel, then push the timestamp onto the
        trigger stream; `fault` says which of the two throws, if any. */
    method OnComplete(timestamp: int, fault: Fault)
      requires Valid()
      modifies this
      ensures Valid() && unchanged(this`pendingRequests, this`restart)
      ensures Snapshot() == Step(old(Snapshot()), Call.OnComplete(timestamp, fault))
    {
      effects := effects + [CancelUpstream];
      if fault.CancelThrows? {
        effects := effects + [DoError(fault.cancelError)];
        return;
      }
      effects := effects + [PushRetry(timestamp)];
      if fault.PushThrows? {
        effects := effects + [DoError(fault.pushError)];
      }
    }
  }

  /** The inner subscriber of the derived trigger publisher. */
  class RestartSubscriber<T> {
    const outer: RepeatWhenAction<T>
    var s: Option<Subscription>

    ghost predicate Linked()
      reads this, outer
    {
      outer.restart == this
    }

    constructor (outer: RepeatWhenAction<T>)
      ensures this.outer == outer && s.None?
    {
      this.outer := outer;
      s := None;
    }

    method OnSubscribe(sub: Subscription)
      requires Linked()
      modifies this, outer
      ensures Linked() && s == Some(sub)
      ensures outer.Snapshot() == Step(old(outer.Snapshot()), TriggerOnSubscribe(sub))
    {
      s := Some(sub);
      outer.effects := outer.effects + [RequestTrigger(sub, 1)];
    }

    /** Re-subscribes the action to the root publisher, then asks for one
        more trigger. */
    method OnNext()
      requires Linked()
      modifies outer
      ensures Linked()
      ensures outer.Snapshot() == Step(old(outer.Snapshot()), TriggerOnNext)
    {
      var threw := outer.DoRetry();
      if threw {
        return;
      }
      if s.None? {
        outer.effects := outer.effects + [NullPointer];
        return;
      }
      outer.effects := outer.effects + [RequestTrigger(s.value, 1)];
    }

    method OnError(t: Throwable)
      requires Linked()
      modifies outer
      ensures Linked()
      ensures outer.Snapshot() == Step(old(outer.Snapshot()), TriggerOnError(t))
    {
      if s.None? {
        outer.effects := outer.effects + [NullPointer];
        return;
      }
      outer.effects := outer.effects + [CancelTrigger(s.value)];
      outer.effects := outer.effects + [DoError(t)];
    }

    method OnComplete()
      requires Linked()
      modifies outer
      ensures Linked()
      ensures outer.Snapshot() == Step(old(outer.Snapshot()), TriggerOnComplete)
    {
      if s.None? {
        outer.effects := outer.effects + [NullPointer];
        return;
      }
      outer.effects := outer.effects + [CancelTrigger(s.value)];
      outer.DoComplete();
    }
  }
}
