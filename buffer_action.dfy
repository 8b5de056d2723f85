/** reactor.rx.action.aggregation.BufferAction: the accumulator behind
    `buffer(...)`. Values arrive through nextCallback and are kept in an
    in-place list; flushCallback hands a copy of the list downstream as one
    batch and empties it; doError throws the accumulation away.

    The size and timer triggers that decide WHEN to flush live in BatchAction,
    which is not part of this model: flushes are calls the environment makes.
    What the component hands to BatchAction/Action (broadcastNext, the
    inherited doError) is recorded in an output log. */
module Aggregation {
  import opened Support

  /** One call the buffer makes into its base classes. */
  datatype Signal<T> =
    | BroadcastNext(batch: seq<T>)   // broadcastNext(toSend)
    | SuperDoError(cause: Throwable) // super.doError(ev)

  /** One callback the base class BatchAction makes into the buffer. */
  datatype Call<T> = NextCallback(value: T) | FlushCallback | DoError(cause: Throwable)

  /** The accumulated list and everything handed on so far. */
  datatype State<T> = State(values: seq<T>, out: seq<Signal<T>>)

  function Step<T>(s: State<T>, c: Call<T>): State<T>
  {
    match c
    case NextCallback(v) => s.(values := s.values + [v])
    case FlushCallback =>
      if s.values == [] then s else State([], s.out + [BroadcastNext(s.values)])
    case DoError(e) => State([], s.out + [SuperDoError(e)])
  }

  function Run<T>(s: State<T>, cs: seq<Call<T>>): State<T>
    decreases |cs|
  {
    if cs == [] then s else Run(Step(s, cs[0]), cs[1..])
  }

  /** The batches broadcast downstream, in order. */
  function Batches<T>(out: seq<Signal<T>>): seq<seq<T>>
  {
    if out == [] then []
    else (if out[0].BroadcastNext? then [out[0].batch] else []) + Batches(out[1..])
  }

  function Flatten<T>(bs: seq<seq<T>>): seq<T>
  {
    if bs == [] then [] else bs[0] + Flatten(bs[1..])
  }

  /** The values fed in by the nextCallback calls of a trace, in order. */
  function Inputs<T>(cs: seq<Call<T>>): seq<T>
  {
    if cs == [] then [] else (if cs[0].NextCallback? then [cs[0].value] else []) + Inputs(cs[1..])
  }

  ghost predicate NoErrors<T>(cs: seq<Call<T>>)
  {
    forall i :: 0 <= i < |cs| ==> !cs[i].DoError?
  }

  /** Everything the buffer has been given and not lost: what was broadcast,
      then what is still pending. */
  function Delivered<T>(s: State<T>): seq<T>
  {
    Flatten(Batches(s.out)) + s.values
  }

  lemma {:induction false} BatchesAppend<T>(a: seq<Signal<T>>, b: seq<Signal<T>>)
    ensures Batches(a + b) == Batches(a) + Batches(b)
    decreases |a|
  {
    if a != [] {
      assert (a + b)[0] == a[0] && (a + b)[1..] == a[1..] + b;
      BatchesAppend(a[1..], b);
    } else {
      assert a + b == b;
    }
  }

  lemma {:induction false} FlattenAppend<T>(a: seq<seq<T>>, b: seq<seq<T>>)
    ensures Flatten(a + b) == Flatten(a) + Flatten(b)
    decreases |a|
  {
    if a != [] {
      assert (a + b)[0] == a[0] && (a + b)[1..] == a[1..] + b;
      FlattenAppend(a[1..], b);
    } else {
      assert a + b == b;
    }
  }

  /** nextCallback and flushCallback neither lose nor duplicate a value:
      the values moved from the pending list into a broadcast batch keep
      their order, and each input is appended behind everything before it. */
  lemma StepConserves<T>(s: State<T>, c: Call<T>)
    requires !c.DoError?
    ensures Delivered(Step(s, c)) == Delivered(s) + Inputs([c])
  {
    assert Inputs([c]) == (if c.NextCallback? then [c.value] else []) + Inputs<T>([]);
    match c
    case NextCallback(v) =>
    case FlushCallback =>
      if s.values != [] {
        BatchesAppend(s.out, [BroadcastNext(s.values)]);
        assert [BroadcastNext(s.values)][1..] == [];
        assert Batches([BroadcastNext(s.values)]) == [s.values];
        FlattenAppend(Batches(s.out), [s.values]);
        assert [s.values][1..] == [];
        assert Flatten([s.values]) == s.values;
      }
  }

  /** Conservation: over any sequence of nextCallback and flushCallback, the
      broadcast batches concatenated and followed by the pending list are the
      inputs in arrival order. */
  lemma {:induction false} Conservation<T>(s: State<T>, cs: seq<Call<T>>)
    requires NoErrors(cs)
    ensures Delivered(Run(s, cs)) == Delivered(s) + Inputs(cs)
    decreases |cs|
  {
    if cs != [] {
      StepConserves(s, cs[0]);
      assert NoErrors(cs[1..]) by {
        forall i | 0 <= i < |cs[1..]| ensures !cs[1..][i].DoError? {
          assert cs[1..][i] == cs[i + 1];
        }
      }
      Conservation(Step(s, cs[0]), cs[1..]);
      assert Inputs(cs) == Inputs([cs[0]]) + Inputs(cs[1..]);
    }
  }

  /** From a fresh buffer: the batches and the pending list are the inputs. */
  lemma ConservationFromEmpty<T>(cs: seq<Call<T>>)
    requires NoErrors(cs)
    ensures Flatten(Batches(Run(State([], []), cs).out)) + Run(State([], []), cs).values == Inputs(cs)
  {
    Conservation(State([], []), cs);
  }

  /** A batch is a copy: whatever happens later, every signal already handed
      on stays as it was, and the log only grows at its end. */
  lemma {:induction false} OutputOnlyGrows<T>(s: State<T>, cs: seq<Call<T>>)
    ensures |s.out| <= |Run(s, cs).out|
    ensures Run(s, cs).out[..|s.out|] == s.out
    decreases |cs|
  {
    if cs != [] {
      OutputOnlyGrows(Step(s, cs[0]), cs[1..]);
    }
  }

  /** Empty flushes are suppressed: if no empty batch was broadcast before,
      none ever is. */
  lemma {:induction false} BatchesNeverEmpty<T>(s: State<T>, cs: seq<Call<T>>)
    requires forall i :: 0 <= i < |s.out| && s.out[i].BroadcastNext? ==> s.out[i].batch != []
    ensures forall i :: 0 <= i < |Run(s, cs).out| && Run(s, cs).out[i].BroadcastNext? ==>
              Run(s, cs).out[i].batch != []
    decreases |cs|
  {
    if cs != [] {
      BatchesNeverEmpty(Step(s, cs[0]), cs[1..]);
    }
  }

  function Flushes<T>(k: nat): seq<Call<T>>
  {
    if k == 0 then [] else [FlushCallback] + Flushes(k - 1)
  }

  /** Flushing is idempotent: any positive number of consecutive flushes has
      the effect of one, and on an empty list a flush changes nothing. */
  lemma {:induction false} RepeatedFlushIsOneFlush<T>(s: State<T>, k: nat)
    requires k >= 1
    ensures Run(s, Flushes(k)) == Step(s, FlushCallback)
    ensures s.values == [] ==> Run(s, Flushes(k)) == s
    decreases k
  {
    var t := Step(s, FlushCallback);
    assert t.values == [];
    if k > 1 {
      RepeatedFlushIsOneFlush(t, k - 1);
    }
  }

  /** doError empties the list without broadcasting it; the values pending at
      the error never reach downstream, and the next batch starts afresh. */
  lemma ErrorDiscardsPending<T>(s: State<T>, e: Throwable, cs: seq<Call<T>>)
    requires NoErrors(cs)
    ensures Step(s, DoError(e)).values == []
    ensures Batches(Step(s, DoError(e)).out) == Batches(s.out)
    ensures Delivered(Run(s, [DoError(e)] + cs)) == Flatten(Batches(s.out)) + Inputs(cs)
  {
    var t := Step(s, DoError(e));
    BatchesAppend(s.out, [SuperDoError(e)]);
    assert Batches([SuperDoError(e)]) == [] + Batches<T>([]);
    assert ([DoError(e)] + cs)[1..] == cs;
    Conservation(t, cs);
  }

  /** The component itself. `values` is the ArrayList it mutates in place;
      `out` records the calls it makes into BatchAction and Action. */
  class BufferAction<T> {
    const batchSize: int
    const timer: Option<Timer>
    var values: seq<T>
    var out: seq<Signal<T>>

    function Snapshot(): State<T>
      reads this
    {
      State(values, out)
    }

    /** BufferAction(int batchsize): no timer. */
    constructor (batchSize: int)
      ensures this.batchSize == batchSize && timer == None
      ensures values == [] && out == []
    {
      this.batchSize := batchSize;
      timer := None;
      values := [];
      out := [];
    }

    /** BufferAction(maxSize, timespan, unit, timer): the timespan and unit go
        to BatchAction only, so just the timer reference is kept. */
    constructor WithTimer(maxSize: int, timer: Option<Timer>)
      ensures batchSize == maxSize && this.timer == timer
      ensures values == [] && out == []
    {
      batchSize := maxSize;
      this.timer := timer;
      values := [];
      out := [];
    }

    /** Appends the value; nothing is handed on. The timer branch runs the
        same update inside `synchronized (timer)`, one atomic step here. */
    method NextCallback(value: T)
      modifies this
      ensures values == old(values) + [value] && out == old(out)
      ensures Snapshot() == Step(old(Snapshot()), Call.NextCallback(value))
    {
      if timer.Some? {
        values := values + [value];
      } else {
        values := values + [value];
      }
    }

    /** Hands a copy of the pending list downstream as one batch and empties
        the list; with nothing pending it returns without any signal. */
    method FlushCallback()
      modifies this
      ensures old(values) == [] ==> values == old(values) && out == old(out)
      ensures old(values) != [] ==> values == [] && out == old(out) + [BroadcastNext(old(values))]
      ensures Snapshot() == Step(old(Snapshot()), Call.FlushCallback)
    {
      var toSend: seq<T>;
      if timer.Some? {
        if values == [] {
          return;
        }
        toSend := values;
        values := [];
      } else {
        if values == [] {
          return;
        }
        toSend := values;
        values := [];
      }
      out := out + [BroadcastNext(toSend)];
    }

    /** Drops the pending list, then passes the error to BatchAction. */
    method DoError(ev: Throwable)
      modifies this
      ensures values == [] && out == old(out) + [SuperDoError(ev)]
      ensures Snapshot() == Step(old(Snapshot()), Call.DoError(ev))
    {
      if timer.Some? {
        values := [];
      } else {
        values := [];
      }
      out := out + [SuperDoError(ev)];
    }
  }
}
