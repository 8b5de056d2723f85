# A verified model of four reactor components

This project models four stateful pieces of the reactor library and proves
properties of them:

- **BufferAction** (`buffer` accumulator, module `Aggregation`). It keeps
  values in a list. `nextCallback` appends one. `flushCallback` hands a copy
  of the list downstream as one batch and empties the list, but emits nothing
  when the list is empty. `doError` drops the list and passes the error on.
- **RepeatWhenAction** (repeat controller, module `Control`). It keeps the
  demand requested from downstream, added with saturation at Long.MAX_VALUE,
  and replays it on every new upstream subscription. It turns upstream
  completion into "cancel, then push a timestamp onto the trigger stream".
  Its inner **RestartSubscriber** requests one trigger at a time. A trigger
  Next re-subscribes the action to its root publisher. A trigger Error errors
  downstream. A trigger Complete completes downstream.
- **ValuePublisher** (single-value publisher, module `Publisher`). Null data
  completes each subscriber at once. Otherwise each subscriber gets a one-shot
  subscription. The first request delivers the value and then completion.
  Anything after the first call does nothing.
- **ExecutorProcessor** (terminal-once lifecycle, module `Processor`). The
  flag `terminated` moves from 0 to 1 once, whichever of onComplete, onError
  and cancel comes first. Only that winner runs its hook and shuts a
  single-use executor down. `alive()` reports `terminated == 0`.

Module `Support` holds what the four share:
- Java null as `Option`.
- The non-negative Java long as `Demand`.
- `BackpressureUtils.addOrLongMax` as a saturating add.

Each component is modelled two ways:
- **A value-level state machine.** A `State` datatype, a `Call` datatype,
  `Step` and `Run` over a sequence of calls. The trace lemmas are proved
  about this machine.
- **A class.** It has the source's mutable fields, and its methods update
  them in place. Each method's `ensures` gives the new fields explicitly.
  Each method that is one entry point of the component also ties its new
  state to `Step`: `Snapshot() == Step(old(Snapshot()), call)`. The
  internal steps are specified on their own terms instead:
  - `RepeatWhenAction.DoComplete` and `DoRetry` state the effects they append.
  - `ExecutorProcessor.ShutdownIfSingleUse` is tied to `SingleUseShutdown`.
  - `ValuePublisher.Subscribe` states the subscriber's signals and the
    subscription it hands out.
  - `ExecutorProcessor.Alive` and `ValuePublisher.Get` change nothing and
    state their result.

Calls into code outside the component are appended, in order, to a log
field (`out` or `effects`), one entry per call. These calls go to BatchAction,
Action, Broadcaster, BaseProcessor, the subscriptions, the executor and the
subscriber.

A call that throws is still logged, followed by what the code does with the
exception. A dereference of a null field is logged as `NullPointer`, not
excluded by a precondition. Two such fields can be null:
- `rootPublisher` in RepeatWhenAction.
- the RestartSubscriber's `s` before onSubscribe.

Two consequences of the code that the lemmas state:
- **Demand replay.** `pendingRequests` is only ever written by `requestMore`
  (RepeatWhenAction.java:62), which only adds to it. So each
  re-subscription replays the cumulative saturated sum of every
  `requestMore`, not what is still outstanding; `Control.ReplayOnSubscribe`
  states that sum.
- **Trigger Complete.** A trigger Complete calls `doComplete`
  (RepeatWhenAction.java:126), which completes the retry stream and then
  downstream; `Control.CompletionOnlyFromTrigger` counts one downstream
  completion per trigger Complete.

## Model

| member | source | states |
|---|---|---|
| Support.AddOrLongMax | reactor-stream/src/main/java/reactor/rx/action/control/RepeatWhenAction.java:62 | the new pending count is min(a + b, Long.MAX_VALUE); it is at least each operand, so it never wraps and never decreases |
| Support.AddAllOrLongMaxIsClampedSum | reactor-stream/src/main/java/reactor/rx/action/control/RepeatWhenAction.java:60-65 | adding demands one at a time with saturation gives the saturated total of the exact sum, from any start |
| Aggregation.StepConserves | reactor-stream/src/main/java/reactor/rx/action/aggregation/BufferAction.java:53-82 | one nextCallback or flushCallback keeps "broadcast batches concatenated, then pending list" equal to the old value followed by the call's input |
| Aggregation.Conservation | reactor-stream/src/main/java/reactor/rx/action/aggregation/BufferAction.java:53-82 | over any trace without doError, the batches broadcast concatenated and then the pending list are the earlier contents followed by the inputs in arrival order: nothing lost, duplicated or reordered |
| Aggregation.ConservationFromEmpty | reactor-stream/src/main/java/reactor/rx/action/aggregation/BufferAction.java:30 | from a fresh buffer, batches followed by the pending list equal exactly the values fed in |
| Aggregation.OutputOnlyGrows | reactor-stream/src/main/java/reactor/rx/action/aggregation/BufferAction.java:71-81 | a batch once broadcast is never altered: the output log of the old state is a prefix of the log after any trace |
| Aggregation.BatchesNeverEmpty | reactor-stream/src/main/java/reactor/rx/action/aggregation/BufferAction.java:68-77 | the empty-list check means no empty batch is ever broadcast |
| Aggregation.RepeatedFlushIsOneFlush | reactor-stream/src/main/java/reactor/rx/action/aggregation/BufferAction.java:64-82 | k >= 1 consecutive flushes act as one flush; on an empty list a flush changes nothing |
| Aggregation.ErrorDiscardsPending | reactor-stream/src/main/java/reactor/rx/action/aggregation/BufferAction.java:41-50 | doError empties the list and broadcasts no batch; the values pending at the error never reach downstream, while later inputs are conserved |
| Aggregation.BufferAction.constructor | reactor-stream/src/main/java/reactor/rx/action/aggregation/BufferAction.java:32-34 | size-only constructor: no timer, empty list, nothing handed on |
| Aggregation.BufferAction.WithTimer | reactor-stream/src/main/java/reactor/rx/action/aggregation/BufferAction.java:36-38 | timer constructor: keeps size and timer, empty list |
| Aggregation.BufferAction.NextCallback | reactor-stream/src/main/java/reactor/rx/action/aggregation/BufferAction.java:53-61 | appends the value at the end and hands nothing on, in both the timer and no-timer branch |
| Aggregation.BufferAction.FlushCallback | reactor-stream/src/main/java/reactor/rx/action/aggregation/BufferAction.java:64-82 | empty list: no change and no signal; otherwise exactly one batch equal to the list, and the list is emptied; same in both branches |
| Aggregation.BufferAction.DoError | reactor-stream/src/main/java/reactor/rx/action/aggregation/BufferAction.java:41-50 | empties the list, then passes the error to the base class; same in both branches |
| Control.AddedCounts | reactor-stream/src/main/java/reactor/rx/action/control/RepeatWhenAction.java:48-127 | which values each call broadcasts, how much trigger demand it requests, and whether it completes downstream |
| Control.EffectsOnlyGrow | reactor-stream/src/main/java/reactor/rx/action/control/RepeatWhenAction.java:37-43 | the effect log only grows and the root publisher never changes |
| Control.PendingIsSaturatedSum | reactor-stream/src/main/java/reactor/rx/action/control/RepeatWhenAction.java:60-65 | after any trace, pendingRequests is the saturated sum of its old value and every demand requested; it never decreases |
| Control.ReplayOnSubscribe | reactor-stream/src/main/java/reactor/rx/action/control/RepeatWhenAction.java:68-73 | after any trace, a new subscription is asked for exactly the saturated sum of requested demand when positive, and nothing when it is zero |
| Control.ResubscribeTargetsRoot | reactor-stream/src/main/java/reactor/rx/action/control/RepeatWhenAction.java:76-78 | every re-subscription after any trace targets the root publisher fixed at construction |
| Control.NextValuesForwarded | reactor-stream/src/main/java/reactor/rx/action/control/RepeatWhenAction.java:49-51 | the values broadcast downstream are exactly the doNext values, unchanged and in order |
| Control.TriggerDemandReplenished | reactor-stream/src/main/java/reactor/rx/action/control/RepeatWhenAction.java:110-115 | with the trigger subscription set and a root publisher, each trigger Next requests exactly one more trigger |
| Control.TriggerDemandAtMostNexts | reactor-stream/src/main/java/reactor/rx/action/control/RepeatWhenAction.java:110-115 | for any root and any `s`, calls other than onSubscribe request at most one trigger per trigger Next |
| Control.OutstandingTriggerDemandIsOne | reactor-stream/src/main/java/reactor/rx/action/control/RepeatWhenAction.java:104-115 | from onSubscribe on, trigger demand requested minus trigger Nexts received never exceeds 1 whatever the trace, and is exactly 1 when the root publisher is not null |
| Control.AddedResubscriptions | reactor-stream/src/main/java/reactor/rx/action/control/RepeatWhenAction.java:76-78 | only a trigger Next subscribes to the root, once; with a null root it raises exactly one NullPointerException instead |
| Control.ResubscribeOncePerTriggerNext | reactor-stream/src/main/java/reactor/rx/action/control/RepeatWhenAction.java:110-115 | over any trace, the re-subscriptions to the root are exactly the trigger Nexts when the root is not null, and none when it is null, where each Next raises a NullPointerException |
| Control.CompletionOnlyFromTrigger | reactor-stream/src/main/java/reactor/rx/action/control/RepeatWhenAction.java:123-127 | upstream onComplete never completes downstream: downstream completions are exactly the trigger Completes |
| Control.TerminalSignalsInOrder | reactor-stream/src/main/java/reactor/rx/action/control/RepeatWhenAction.java:80-127 | trigger Error cancels s then errors downstream; trigger Complete cancels s, completes the retry stream, then downstream; upstream onComplete cancels first, pushes the timestamp, routes an exception from either to doError and never completes downstream |
| Control.RepeatWhenAction.constructor | reactor-stream/src/main/java/reactor/rx/action/control/RepeatWhenAction.java:40-46 | root wrapped unless null, no pending demand, RestartSubscriber subscribed to the derived publisher |
| Control.RepeatWhenAction.DoNext | reactor-stream/src/main/java/reactor/rx/action/control/RepeatWhenAction.java:49-51 | broadcasts the value unchanged; nothing else changes |
| Control.RepeatWhenAction.DoComplete | reactor-stream/src/main/java/reactor/rx/action/control/RepeatWhenAction.java:54-57 | completes the retry stream, then downstream |
| Control.RepeatWhenAction.RequestMore | reactor-stream/src/main/java/reactor/rx/action/control/RepeatWhenAction.java:60-65 | pendingRequests becomes min(old + n, Long.MAX_VALUE), then the demand is passed to the base class |
| Control.RepeatWhenAction.DoOnSubscribe | reactor-stream/src/main/java/reactor/rx/action/control/RepeatWhenAction.java:68-73 | requests exactly pendingRequests from the new subscription when positive, nothing otherwise |
| Control.RepeatWhenAction.DoRetry | reactor-stream/src/main/java/reactor/rx/action/control/RepeatWhenAction.java:76-78 | subscribes the action to the root publisher; a null one fails with a NullPointerException |
| Control.RepeatWhenAction.OnComplete | reactor-stream/src/main/java/reactor/rx/action/control/RepeatWhenAction.java:80-88 | cancel, then push the timestamp; an exception from either goes to doError, and the push is skipped if cancel threw |
| Control.RestartSubscriber.constructor | reactor-stream/src/main/java/reactor/rx/action/control/RepeatWhenAction.java:90-91 | a new subscriber bound to its action, with no subscription |
| Control.RestartSubscriber.OnSubscribe | reactor-stream/src/main/java/reactor/rx/action/control/RepeatWhenAction.java:104-107 | stores s, then requests exactly 1 |
| Control.RestartSubscriber.OnNext | reactor-stream/src/main/java/reactor/rx/action/control/RepeatWhenAction.java:110-115 | re-subscribes to the root, then requests 1 more; fails at the first null dereference |
| Control.RestartSubscriber.OnError | reactor-stream/src/main/java/reactor/rx/action/control/RepeatWhenAction.java:118-121 | cancels s, then errors downstream |
| Control.RestartSubscriber.OnComplete | reactor-stream/src/main/java/reactor/rx/action/control/RepeatWhenAction.java:124-127 | cancels s, then doComplete |
| Publisher.ClosedSubscriptionIsInert | reactor-core/src/main/java/reactor/core/publisher/ValuePublisher.java:48-61 | once terminado is set, no request or cancel changes anything |
| Publisher.FirstCallDecides | reactor-core/src/main/java/reactor/core/publisher/ValuePublisher.java:48-61 | on an open subscription the first call alone decides: a request of any size delivers onNext(data) then onComplete, a cancel delivers nothing ever |
| Publisher.ObservedSignals | reactor-core/src/main/java/reactor/core/publisher/ValuePublisher.java:37-62 | null data: exactly onSubscribe(NOOP) then onComplete; otherwise onSubscribe, then onNext(data) and onComplete exactly when the first call is a request |
| Publisher.AtMostOnce | reactor-core/src/main/java/reactor/core/publisher/ValuePublisher.java:37-62 | over any calls: onSubscribe first and only once, at most one onNext and it carries the data, onComplete at most once and last |
| Publisher.OneShotSubscription.constructor | reactor-core/src/main/java/reactor/core/publisher/ValuePublisher.java:44-45 | a new subscription starts open |
| Publisher.OneShotSubscription.Request | reactor-core/src/main/java/reactor/core/publisher/ValuePublisher.java:48-56 | first request closes the subscription and delivers onNext(data) then onComplete; later requests do nothing |
| Publisher.OneShotSubscription.Cancel | reactor-core/src/main/java/reactor/core/publisher/ValuePublisher.java:59-61 | closes the subscription without a signal; idempotent |
| Publisher.ValuePublisher.constructor | reactor-core/src/main/java/reactor/core/publisher/ValuePublisher.java:32-34 | stores the data |
| Publisher.ValuePublisher.Get | reactor-core/src/main/java/reactor/core/publisher/ValuePublisher.java:70-72 | returns the constructor's data |
| Publisher.ValuePublisher.Subscribe | reactor-core/src/main/java/reactor/core/publisher/ValuePublisher.java:37-62 | null data: onSubscribe(NOOP) then onComplete, no subscription; otherwise onSubscribe with a fresh open one-shot subscription bound to this subscriber and value |
| Processor.ChooseExecutor | reactor-core/src/main/java/reactor/core/processor/ExecutorProcessor.java:47-52 | a null argument yields a new single-use executor not yet shut down; a given one is kept as it is |
| Processor.SingleUseShutdownFacts | reactor-core/src/main/java/reactor/core/processor/ExecutorProcessor.java:74-76 | only a SingleUseExecutor is shut down, once; any other executor and the state are untouched |
| Processor.CompleteFacts | reactor-core/src/main/java/reactor/core/processor/ExecutorProcessor.java:71-79 | onComplete terminates; only the winner of the 0 to 1 transition runs doComplete and shuts a single-use executor down |
| Processor.ErrorFacts | reactor-core/src/main/java/reactor/core/processor/ExecutorProcessor.java:86-95 | onError always reaches the base class first, also when already terminated, and nothing else happens then; it terminates, and only the winner runs doError and shuts a single-use executor down |
| Processor.CancelFacts | reactor-core/src/main/java/reactor/core/processor/ExecutorProcessor.java:119-126 | cancel terminates without a hook; only the winner shuts a single-use executor down |
| Processor.StepEffects | reactor-core/src/main/java/reactor/core/processor/ExecutorProcessor.java:56-158 | per call: terminated stays 0 or 1 and never returns to 0; the log only grows; the hook added is that of the call when alive, none otherwise; for onComplete, onError and cancel, a single-use executor is shut down exactly when the call wins the 0 to 1 transition |
| Processor.TerminalHookRunsOnce | reactor-core/src/main/java/reactor/core/processor/ExecutorProcessor.java:70-95 | over any trace terminated moves from 0 to 1 at most once, and exactly the hook of the first terminal call runs, once |
| Processor.AliveIffNoTerminalCall | reactor-core/src/main/java/reactor/core/processor/ExecutorProcessor.java:143-145 | alive() after a trace holds exactly when none of its calls was onComplete, onError, cancel or shutdown |
| Processor.TerminalPathsShutDownOnce | reactor-core/src/main/java/reactor/core/processor/ExecutorProcessor.java:118-126 | onComplete, onError, cancel and doOnSubscribe shut the executor down at most once and only when its class is SingleUseExecutor; an executor of any other class is untouched |
| Processor.CancelIsIdempotent | reactor-core/src/main/java/reactor/core/processor/ExecutorProcessor.java:119-126 | cancel sets cancelled and terminates, keeps the upstream subscription, and a second cancel changes nothing |
| Processor.TerminalSignalClearsUpstream | reactor-core/src/main/java/reactor/core/processor/ExecutorProcessor.java:71-95 | the first onComplete or onError clears the upstream subscription |
| Processor.ShutdownLeavesDead | reactor-core/src/main/java/reactor/core/processor/ExecutorProcessor.java:151-158 | after shutdown() the processor is not alive and the executor is shut down |
| Processor.ForceShutdownWhenShutIsNoop | reactor-core/src/main/java/reactor/core/processor/ExecutorProcessor.java:132-135 | forceShutdown on an executor already shut down changes nothing |
| Processor.OnSubscribeRequestsTask | reactor-core/src/main/java/reactor/core/processor/ExecutorProcessor.java:56-60 | doOnSubscribe runs requestTask for every subscription except the no-op one |
| Processor.ExecutorProcessor.constructor | reactor-core/src/main/java/reactor/core/processor/ExecutorProcessor.java:42-53 | executor chosen as ChooseExecutor says; alive, not cancelled, no upstream subscription |
| Processor.ExecutorProcessor.Alive | reactor-core/src/main/java/reactor/core/processor/ExecutorProcessor.java:143-145 | true exactly when terminated is 0 |
| Processor.ExecutorProcessor.DoOnSubscribe | reactor-core/src/main/java/reactor/core/processor/ExecutorProcessor.java:56-60 | requestTask for any subscription but the no-op one |
| Processor.ExecutorProcessor.ShutdownIfSingleUse | reactor-core/src/main/java/reactor/core/processor/ExecutorProcessor.java:74-76 | shuts the executor down only when it is single-use |
| Processor.ExecutorProcessor.OnComplete | reactor-core/src/main/java/reactor/core/processor/ExecutorProcessor.java:71-79 | first terminal call: clears the upstream subscription and ends with doComplete; otherwise nothing changes |
| Processor.ExecutorProcessor.OnError | reactor-core/src/main/java/reactor/core/processor/ExecutorProcessor.java:86-95 | base onError always; first terminal call: clears the upstream subscription and ends with doError |
| Processor.ExecutorProcessor.Cancel | reactor-core/src/main/java/reactor/core/processor/ExecutorProcessor.java:119-126 | sets cancelled, terminates, keeps the upstream subscription |
| Processor.ExecutorProcessor.ForceShutdown | reactor-core/src/main/java/reactor/core/processor/ExecutorProcessor.java:132-135 | the executor ends shut down; shutdownNow only if it was not already |
| Processor.ExecutorProcessor.Shutdown | reactor-core/src/main/java/reactor/core/processor/ExecutorProcessor.java:151-158 | onComplete, then executor shutdown: dead, and executor shut down |

## Left out

- Concurrency: `synchronized (timer)` in BufferAction, `synchronized (this)` in RepeatWhenAction and the compare-and-set on `terminated` are each one atomic step. Interleavings inside them are not modelled.
- BatchAction's size and timer flush triggers, and the constructor arguments it alone uses (timespan, unit), are not part of this model. Flushes and callbacks are calls from the environment.
- Aggregation.BufferAction.FlushCallback: the `ev` argument of flushCallback is unused by the code, so the method takes none.
- Action, Broadcaster, Publishers.trampoline, BaseProcessor and SingleUseExecutor are not part of this model. Their methods are log entries with no behaviour; the executor is a record of "single-use" and "shut down".
- The RepeatWhenAction constructor's timer and user predicate function are not modelled. The derived trigger publisher is the environment, which calls the RestartSubscriber.
- RestartSubscriber.isExposedToOverflow and getCapacity only delegate to Action, so they are not modelled.
- System.currentTimeMillis is the `timestamp` parameter of onComplete.
- Control.RepeatWhenAction.RequestMore: `n` is a `Demand` (0 to Long.MAX_VALUE), so a negative n is not modelled. BackpressureUtils, which would say what addOrLongMax does with one, is not part of this model.
- Control.RepeatWhenAction.OnComplete: which unseen call throws is the `fault` parameter, and its `Throwable` stands for a `java.lang.Exception`. The code's `catch (Exception e)` does not catch a `java.lang.Error`, which escapes onComplete without reaching doError; the model has no such case. Exceptions elsewhere, such as from a subscription's request, are not modelled.
- Synchronous re-entry is not modelled. Several outgoing calls can call back into the action or its RestartSubscriber before they return: `subscription.request` (RepeatWhenAction.java:71), `rootPublisher.subscribe(this)` (:77), `retryStream.onNext` (:84) and `s.request` (:106, :114). The model makes each entry point one atomic step and any nested callback a later, separate call. So the effect log can order entries differently from the code. For example, the `RequestUpstream` of a synchronous re-subscription is logged after the trigger `RequestTrigger` instead of between `SubscribeRoot` and it.
- Publisher.ValuePublisher.Subscribe: the `catch (Throwable)` fallback to Publishers.error is not modelled. The modelled subscriber never throws.
- ValuePublisher.toString and ExecutorProcessor.isWork are not modelled: one is a string rendering and the other is abstract.
- Processor.ExecutorProcessor.Shutdown: the `catch (Throwable)` that routes an exception to onError is not modelled. The modelled hooks and executor never throw.
- awaitAndShutdown blocks on the executor's termination, so it is not modelled.
