/** reactor.core.processor.ExecutorProcessor: the lifecycle shared by the
    executor-backed processors. One `terminated` flag, moved from 0 to 1 by
    whichever of onComplete, onError and cancel comes first, decides which
    terminal hook runs and whether a single-use executor is shut down.

    The compare-and-set on `terminated` is one atomic step here. The hooks a
    subclass overrides (doComplete, doError, requestTask), the base class's
    onError and the executor's own methods are recorded in an effect log. */
module Processor {
  import opened Support

  /** The ExecutorService: whether its class is SingleUseExecutor, and
      whether it has been shut down. */
  datatype Executor = Executor(singleUse: bool, isShutdown: bool)

  datatype Subscription = NoopSubscription | Upstream(id: nat)

  /** One call the processor makes outside its own fields. */
  datatype Effect =
    | BaseOnError(cause: Throwable)  // super.onError(t)
    | ExecutorShutdown               // executor.shutdown()
    | ExecutorShutdownNow            // executor.shutdownNow()
    | DoComplete                     // doComplete() hook
    | DoError(cause: Throwable)      // doError(t) hook
    | RequestTask(s: Subscription)   // requestTask(s) hook

  /** A public or protected entry point of the processor. */
  datatype Call =
    | OnComplete
    | OnError(cause: Throwable)
    | Cancel
    | Shutdown
    | ForceShutdown
    | DoOnSubscribe(s: Subscription)

  datatype State = State(
    terminated: int,
    cancelled: bool,
    upstreamSubscription: Option<Subscription>,
    executor: Executor,
    effects: seq<Effect>)

  ghost predicate Valid(s: State)
  {
    s.terminated == 0 || s.terminated == 1
  }

  function IsAlive(s: State): bool
  {
    s.terminated == 0
  }

  /** The constructor's choice: a fresh single-use executor when none is
      given, otherwise the given one as it is. */
  function ChooseExecutor(given: Option<Executor>): (e: Executor)
    ensures given.None? ==> e.singleUse && !e.isShutdown
    ensures given.Some? ==> e == given.value
  {
    if given.None? then Executor(true, false) else given.value
  }

  /** A terminal path's executor handling: only a SingleUseExecutor is shut down. */
  function SingleUseShutdown(s: State): State
  {
    if s.executor.singleUse
    then s.(executor := s.executor.(isShutdown := true), effects := s.effects + [ExecutorShutdown])
    else s
  }

  /** onComplete: only the call that wins the 0 -> 1 transition acts. */
  function CompleteOnce(s: State): State
  {
    if s.terminated != 0 then s
    else
      var t := SingleUseShutdown(s.(terminated := 1, upstreamSubscription := None));
      t.(effects := t.effects + [DoComplete])
  }

  /** onError: the base class always sees the error; the rest only on the
      0 -> 1 transition. */
  function ErrorOnce(s: State, e: Throwable): State
  {
    var s' := s.(effects := s.effects + [BaseOnError(e)]);
    if s'.terminated != 0 then s'
    else
      var t := SingleUseShutdown(s'.(terminated := 1, upstreamSubscription := None));
      t.(effects := t.effects + [DoError(e)])
  }

  /** cancel: always marks cancelled; the upstream subscription is kept. */
  function CancelOnce(s: State): State
  {
    var s' := s.(cancelled := true);
    if s'.terminated != 0 then s' else SingleUseShutdown(s'.(terminated := 1))
  }

  function Step(s: State, c: Call): State
  {
    match c
    case OnComplete => CompleteOnce(s)
    case OnError(e) => ErrorOnce(s, e)
    case Cancel => CancelOnce(s)
    case Shutdown =>
      var t := CompleteOnce(s);
      t.(executor := t.executor.(isShutdown := true), effects := t.effects + [ExecutorShutdown])
    case ForceShutdown =>
      if s.executor.isShutdown then s
      else s.(executor := s.executor.(isShutdown := true), effects := s.effects + [ExecutorShutdownNow])
    case DoOnSubscribe(sub) =>
      if sub == NoopSubscription then s else s.(effects := s.effects + [RequestTask(sub)])
  }

  function Run(s: State, cs: seq<Call>): State
    decreases |cs|
  {
    if cs == [] then s else Run(Step(s, cs[0]), cs[1..])
  }

  predicate IsTerminal(c: Call)
  {
    c.OnComplete? || c.OnError? || c.Cancel? || c.Shutdown?
  }

  predicate IsHook(e: Effect)
  {
    e.DoComplete? || e.DoError?
  }

  /** The terminal hooks of an effect log, in order. */
  function Hooks(es: seq<Effect>): seq<Effect>
    decreases |es|
  {
    if es == [] then []
    else Hooks(es[..|es| - 1]) + (if IsHook(es[|es| - 1]) then [es[|es| - 1]] else [])
  }

  /** The hook the first terminal call of `cs` runs: doComplete for
      onComplete (also reached through shutdown), doError for onError,
      none for cancel or when no terminal call happens. */
  function FirstHook(cs: seq<Call>): seq<Effect>
  {
    if cs == [] then []
    else match cs[0]
      case OnComplete => [DoComplete]
      case Shutdown => [DoComplete]
      case OnError(e) => [DoError(e)]
      case Cancel => []
      case _ => FirstHook(cs[1..])
  }

  function CountShutdowns(es: seq<Effect>): nat
    decreases |es|
  {
    if es == [] then 0
    else CountShutdowns(es[..|es| - 1]) + (if es[|es| - 1] == ExecutorShutdown then 1 else 0)
  }

  lemma HooksSnoc(a: seq<Effect>, e: Effect)
    ensures Hooks(a + [e]) == Hooks(a) + (if IsHook(e) then [e] else [])
  {
    assert (a + [e])[..|a|] == a;
  }

  lemma CountShutdownsSnoc(a: seq<Effect>, e: Effect)
    ensures CountShutdowns(a + [e]) == CountShutdowns(a) + (if e == ExecutorShutdown then 1 else 0)
  {
    assert (a + [e])[..|a|] == a;
  }

  lemma SingleUseShutdownFacts(s: State)
    ensures var t := SingleUseShutdown(s);
      && s.effects <= t.effects
      && Hooks(t.effects) == Hooks(s.effects)
      && CountShutdowns(t.effects) == CountShutdowns(s.effects) + (if s.executor.singleUse then 1 else 0)
      && t.executor.singleUse == s.executor.singleUse
      && (!s.executor.singleUse ==> t == s)
      && t.terminated == s.terminated
  {
    if s.executor.singleUse {
      HooksSnoc(s.effects, ExecutorShutdown);
      CountShutdownsSnoc(s.effects, ExecutorShutdown);
    }
  }

  /** One step on the effect log: it only grows; the terminal hook it adds is
      that of the call when the processor was alive, none otherwise; a call
      other than shutdown and forceShutdown shuts a single-use executor down
      exactly when it terminates the processor. */
  ghost predicate StepKeeps(s: State, c: Call)
  {
    var t := Step(s, c);
    && Valid(t)
    && (s.terminated == 1 ==> t.terminated == 1)
    && (t.terminated == 0 <==> s.terminated == 0 && !IsTerminal(c))
    && s.effects <= t.effects
    && Hooks(t.effects) == Hooks(s.effects) + (if s.terminated == 0 then FirstHook([c]) else [])
    && t.executor.singleUse == s.executor.singleUse
    && (!c.Shutdown? && !c.ForceShutdown? ==>
          CountShutdowns(t.effects) == CountShutdowns(s.effects)
            + (if s.terminated == 0 && IsTerminal(c) && s.executor.singleUse then 1 else 0))
    && (!c.Shutdown? && !c.ForceShutdown? && !s.executor.singleUse ==> t.executor == s.executor)
  }

  lemma StepEffects(s: State, c: Call)
    requires Valid(s)
    ensures StepKeeps(s, c)
  {
    match c
    case OnComplete => CompleteStepKeeps(s);
    case OnError(e) => ErrorStepKeeps(s, e);
    case Cancel => CancelStepKeeps(s);
    case Shutdown => ShutdownStepKeeps(s);
    case ForceShutdown => ForceShutdownStepKeeps(s);
    case DoOnSubscribe(sub) => OnSubscribeStepKeeps(s, sub);
  }

  lemma CompleteStepKeeps(s: State)
    requires Valid(s)
    ensures StepKeeps(s, OnComplete)
  {
    CompleteFacts(s);
    assert FirstHook([OnComplete]) == [DoComplete];
  }

  lemma ErrorStepKeeps(s: State, e: Throwable)
    requires Valid(s)
    ensures StepKeeps(s, OnError(e))
  {
    ErrorFacts(s, e);
    assert FirstHook([OnError(e)]) == [DoError(e)];
  }

  lemma CancelStepKeeps(s: State)
    requires Valid(s)
    ensures StepKeeps(s, Cancel)
  {
    CancelFacts(s);
    assert FirstHook([Cancel]) == [];
  }

  lemma ShutdownStepKeeps(s: State)
    requires Valid(s)
    ensures StepKeeps(s, Shutdown)
  {
    CompleteFacts(s);
    HooksSnoc(CompleteOnce(s).effects, ExecutorShutdown);
    assert FirstHook([Shutdown]) == [DoComplete];
  }

  lemma ForceShutdownStepKeeps(s: State)
    requires Valid(s)
    ensures StepKeeps(s, ForceShutdown)
  {
    if !s.executor.isShutdown {
      HooksSnoc(s.effects, ExecutorShutdownNow);
    }
    assert FirstHook([ForceShutdown]) == FirstHook([]);
  }

  lemma OnSubscribeStepKeeps(s: State, sub: Subscription)
    requires Valid(s)
    ensures StepKeeps(s, DoOnSubscribe(sub))
  {
    if sub != NoopSubscription {
      HooksSnoc(s.effects, RequestTask(sub));
      CountShutdownsSnoc(s.effects, RequestTask(sub));
    }
    assert FirstHook([DoOnSubscribe(sub)]) == FirstHook([]);
  }

  lemma ErrorFacts(s: State, e: Throwable)
    requires Valid(s)
    ensures var t := ErrorOnce(s, e);
      && t.terminated == 1
      && s.effects <= t.effects
      && |t.effects| > |s.effects| && t.effects[|s.effects|] == BaseOnError(e)
      && (s.terminated != 0 ==> t.effects == s.effects + [BaseOnError(e)])
      && Hooks(t.effects) == Hooks(s.effects) + (if s.terminated == 0 then [DoError(e)] else [])
      && CountShutdowns(t.effects) == CountShutdowns(s.effects)
           + (if s.terminated == 0 && s.executor.singleUse then 1 else 0)
      && t.executor.singleUse == s.executor.singleUse
      && (!s.executor.singleUse ==> t.executor == s.executor)
  {
    var s' := s.(effects := s.effects + [BaseOnError(e)]);
    HooksSnoc(s.effects, BaseOnError(e));
    CountShutdownsSnoc(s.effects, BaseOnError(e));
    if s.terminated == 0 {
      var u := s'.(terminated := 1, upstreamSubscription := None);
      SingleUseShutdownFacts(u);
      var t := SingleUseShutdown(u);
      HooksSnoc(t.effects, DoError(e));
      CountShutdownsSnoc(t.effects, DoError(e));
    }
  }

  lemma CancelFacts(s: State)
    requires Valid(s)
    ensures var t := CancelOnce(s);
      && t.terminated == 1
      && s.effects <= t.effects
      && Hooks(t.effects) == Hooks(s.effects)
      && CountShutdowns(t.effects) == CountShutdowns(s.effects)
           + (if s.terminated == 0 && s.executor.singleUse then 1 else 0)
      && t.executor.singleUse == s.executor.singleUse
      && (!s.executor.singleUse ==> t.executor == s.executor)
  {
    if s.terminated == 0 {
      SingleUseShutdownFacts(s.(cancelled := true, terminated := 1));
    }
  }

  lemma CompleteFacts(s: State)
    requires Valid(s)
    ensures var t := CompleteOnce(s);
      && t.terminated == 1
      && s.effects <= t.effects
      && Hooks(t.effects) == Hooks(s.effects) + (if s.terminated == 0 then [DoComplete] else [])
      && CountShutdowns(t.effects) == CountShutdowns(s.effects)
           + (if s.terminated == 0 && s.executor.singleUse then 1 else 0)
      && t.executor.singleUse == s.executor.singleUse
      && (!s.executor.singleUse ==> t.executor == s.executor)
  {
    if s.terminated == 0 {
      var u := s.(terminated := 1, upstreamSubscription := None);
      SingleUseShutdownFacts(u);
      var t := SingleUseShutdown(u);
      HooksSnoc(t.effects, DoComplete);
      CountShutdownsSnoc(t.effects, DoComplete);
    }
  }

  /** Terminal-once: `terminated` only moves from 0 to 1, and over any trace
      exactly the hook of the first terminal call runs, once; a processor
      already terminated runs no hook again. */
  lemma {:induction false} TerminalHookRunsOnce(s: State, cs: seq<Call>)
    requires Valid(s)
    ensures Valid(Run(s, cs))
    ensures s.terminated == 1 ==> Run(s, cs).terminated == 1
    ensures s.effects <= Run(s, cs).effects
    ensures Hooks(Run(s, cs).effects) == Hooks(s.effects) + (if s.terminated == 0 then FirstHook(cs) else [])
    decreases |cs|
  {
    if cs != [] {
      var t := Step(s, cs[0]);
      StepEffects(s, cs[0]);
      TerminalHookRunsOnce(t, cs[1..]);
      if s.terminated == 0 && !IsTerminal(cs[0]) {
        assert FirstHook(cs) == FirstHook(cs[1..]);
      }
    }
  }

  /** alive() holds after a trace exactly when none of its calls was
      onComplete, onError, cancel or shutdown. */
  lemma {:induction false} AliveIffNoTerminalCall(s: State, cs: seq<Call>)
    requires Valid(s) && IsAlive(s)
    ensures IsAlive(Run(s, cs)) <==> forall i :: 0 <= i < |cs| ==> !IsTerminal(cs[i])
    decreases |cs|
  {
    if cs != [] {
      var t := Step(s, cs[0]);
      StepEffects(s, cs[0]);
      if IsTerminal(cs[0]) {
        TerminalHookRunsOnce(t, cs[1..]);
      } else {
        AliveIffNoTerminalCall(t, cs[1..]);
        assert forall i :: 0 <= i < |cs[1..]| ==> cs[1..][i] == cs[i + 1];
      }
    }
  }

  /** Over onComplete, onError, cancel and doOnSubscribe calls the executor
      is shut down at most once, and only when it is single-use; a
      caller-supplied executor of another kind is never touched. */
  lemma {:induction false} TerminalPathsShutDownOnce(s: State, cs: seq<Call>)
    requires Valid(s)
    requires forall i :: 0 <= i < |cs| ==> !cs[i].Shutdown? && !cs[i].ForceShutdown?
    ensures CountShutdowns(Run(s, cs).effects) <=
            CountShutdowns(s.effects) + (if s.terminated == 0 && s.executor.singleUse then 1 else 0)
    ensures !s.executor.singleUse ==> Run(s, cs).executor == s.executor
    decreases |cs|
  {
    if cs != [] {
      var t := Step(s, cs[0]);
      StepEffects(s, cs[0]);
      assert forall i :: 0 <= i < |cs[1..]| ==> cs[1..][i] == cs[i + 1];
      TerminalPathsShutDownOnce(t, cs[1..]);
    }
  }

  /** cancel always marks the processor cancelled and terminated, leaves the
      upstream subscription alone, and a second cancel changes nothing. */
  lemma CancelIsIdempotent(s: State)
    requires Valid(s)
    ensures var t := Step(s, Cancel);
      t.cancelled && !IsAlive(t) && t.upstreamSubscription == s.upstreamSubscription
      && Step(t, Cancel) == t
  {
  }

  /** The first onComplete or onError clears the upstream subscription. */
  lemma TerminalSignalClearsUpstream(s: State, c: Call)
    requires Valid(s) && IsAlive(s) && (c.OnComplete? || c.OnError?)
    ensures Step(s, c).upstreamSubscription.None? && !IsAlive(Step(s, c))
  {
  }

  /** shutdown() leaves the processor dead and its executor shut down, a
      caller-supplied one included. */
  lemma ShutdownLeavesDead(s: State)
    requires Valid(s)
    ensures !IsAlive(Step(s, Shutdown)) && Step(s, Shutdown).executor.isShutdown
  {
  }

  /** forceShutdown on an executor already shut down does nothing. */
  lemma ForceShutdownWhenShutIsNoop(s: State)
    requires Valid(s) && s.executor.isShutdown
    ensures Step(s, ForceShutdown) == s
  {
  }

  /** doOnSubscribe runs requestTask for every subscription but the no-op one. */
  lemma OnSubscribeRequestsTask(s: State, sub: Subscription)
    ensures Step(s, DoOnSubscribe(sub)).effects ==
            s.effects + (if sub == NoopSubscription then [] else [RequestTask(sub)])
  {
  }

  class ExecutorProcessor {
    var executor: Executor
    var cancelled: bool
    var terminated: int
    var upstreamSubscription: Option<Subscription>
    var effects: seq<Effect>

    function Snapshot(): State
      reads this
    {
      State(terminated, cancelled, upstreamSubscription, executor, effects)
    }

    ghost predicate Inv()
      reads this
    {
      Valid(Snapshot())
    }

    /** A null executor argument yields a new single-use executor; a given
        one is kept. The upstream subscription starts out null. */
    constructor (executor: Option<Executor>)
      ensures Inv() && IsAlive(Snapshot()) && !cancelled
      ensures this.executor == ChooseExecutor(executor)
      ensures upstreamSubscription.None? && effects == []
    {
      this.executor := ChooseExecutor(executor);
      cancelled := false;
      terminated := 0;
      upstreamSubscription := None;
      effects := [];
    }

    method Alive() returns (r: bool)
      ensures r <==> terminated == 0
    {
      r := 0 == terminated;
    }

    method DoOnSubscribe(s: Subscription)
      modifies this
      ensures Snapshot() == Step(old(Snapshot()), Call.DoOnSubscribe(s))
    {
      if s != NoopSubscription {
        effects := effects + [RequestTask(s)];
      }
    }

    method ShutdownIfSingleUse()
      modifies this
      ensures Snapshot() == SingleUseShutdown(old(Snapshot()))
    {
      if executor.singleUse {
        executor := executor.(isShutdown := true);
        effects := effects + [ExecutorShutdown];
      }
    }

    method OnComplete()
      requires Inv()
      modifies this
      ensures Inv()
      ensures old(terminated) == 0 ==> upstreamSubscription.None? && |effects| > 0 && effects[|effects| - 1] == DoComplete
      ensures old(terminated) != 0 ==> Snapshot() == old(Snapshot())
      ensures Snapshot() == Step(old(Snapshot()), Call.OnComplete)
    {
      if terminated == 0 {
        terminated := 1;
        upstreamSubscription := None;
        ShutdownIfSingleUse();
        effects := effects + [DoComplete];
      }
    }

    method OnError(t: Throwable)
      requires Inv()
      modifies this
      ensures Inv()
      ensures old(terminated) == 0 ==> upstreamSubscription.None? && |effects| > 0 && effects[|effects| - 1] == DoError(t)
      ensures Snapshot() == Step(old(Snapshot()), Call.OnError(t))
    {
      effects := effects + [BaseOnError(t)];
      if terminated == 0 {
        terminated := 1;
        upstreamSubscription := None;
        ShutdownIfSingleUse();
        effects := effects + [DoError(t)];
      }
    }

    /** cancel(subscription): the argument is not used. */
    method Cancel(subscription: Subscription)
      requires Inv()
      modifies this
      ensures Inv() && cancelled && terminated == 1
      ensures upstreamSubscription == old(upstreamSubscription)
      ensures Snapshot() == Step(old(Snapshot()), Call.Cancel)
    {
      cancelled := true;
      if terminated == 0 {
        terminated := 1;
        ShutdownIfSingleUse();
      }
    }

    method ForceShutdown()
      modifies this
      ensures executor.isShutdown
      ensures Snapshot() == Step(old(Snapshot()), Call.ForceShutdown)
    {
      if executor.isShutdown {
        return;
      }
      executor := executor.(isShutdown := true);
      effects := effects + [ExecutorShutdownNow];
    }

    method Shutdown()
      requires Inv()
      modifies this
      ensures Inv() && terminated == 1 && executor.isShutdown
      ensures Snapshot() == Step(old(Snapshot()), Call.Shutdown)
    {
      OnComplete();
      executor := executor.(isShutdown := true);
      effects := effects + [ExecutorShutdown];
    }
  }
}
