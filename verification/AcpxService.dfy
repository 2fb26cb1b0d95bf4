/**
  The service object of `createAcpxRuntimeService` and the registry slot it shares with other
  plugins. Each method is one stretch of code between two awaits, tied to its step; it keeps the invariant
  and states what callers and other plugins rely on after it.
*/
module AcpxService {
  import opened Options
  import opened AcpxLifecycle
  import opened AcpxRuns

  /** The backend registry, reduced to the slot of the ACPX id. */
  class Registry {
    var slot: Option<Runtime>

    constructor (backend: Option<nat>)
      ensures slot == ForeignSlot(backend)
    {
      slot := ForeignSlot(backend);
    }

    method UnregisterOwned(runtime: Option<Runtime>)
      modifies this
      ensures slot == Unregister(old(slot), runtime)
    {
      if runtime.Some? && slot == runtime {
        slot := None;
      }
    }
  }

  class Service {
    const registry: Registry
    var ctx: Option<Ctx>
    var published: bool
    var lifecycleRevision: nat
    var ownedRuntime: Option<Runtime>
    var realService: Option<StartId>
    var startPromise: Option<StartId>
    var stopPromise: Option<Stop>
    var stopCount: nat
    var failedStops: set<nat>
    var startCount: nat
    var starts: map<StartId, Start>
    var waiters: map<TaskId, Waiter>
    var promotions: map<TaskId, Promotion>
    var callers: map<TaskId, StartId>

    ghost function View(): State
      reads this, registry
    {
      State(ctx, published, lifecycleRevision, ownedRuntime, realService, startPromise, stopPromise,
            registry.slot, stopCount, failedStops, startCount, starts, waiters, promotions, callers)
    }

    /** A runtime of this service in the slot is the owned one, and one inner start is in flight at most. */
    ghost predicate Valid()
      reads this, registry
    {
      Inv(View())
    }

    constructor (registry: Registry, ghost backend: Option<nat>)
      requires registry.slot == ForeignSlot(backend)
      ensures this.registry == registry && View() == Initially(backend) && Valid()
    {
      this.registry := registry;
      ctx, published, lifecycleRevision, ownedRuntime := None, false, 0, None;
      realService, startPromise, stopPromise := None, None, None;
      stopCount, failedStops, startCount, starts := 0, {}, 0, map[];
      waiters, promotions, callers := map[], map[], map[];
    }

    method StartRealService(task: TaskId, revision: nat, deferredRuntime: Runtime)
      modifies this
      ensures View() ==
        if old(View()).revision != revision || old(View()).ctx.None? then old(View())
        else StartReal(old(View()), task, deferredRuntime)
    {
      if lifecycleRevision != revision || ctx.None? {
        return;
      }
      if startPromise.None? {
        starts := starts[startCount := Start(revision, ctx.value, deferredRuntime, None, Loading)];
        startPromise := Some(startCount);
        startCount := startCount + 1;
      }
      callers := callers[task := startPromise.value];
    }

    method GetRuntimeNow(task: TaskId, newCtx: Ctx)
      modifies this
      ensures View() == RuntimeBody(old(View()), task, newCtx)
    {
      hide StartReal, Opened;
      OpenedFrame(View(), newCtx);
      if ctx.None? {
        OpenNow(newCtx);
      }
      if ownedRuntime.None? {
        return;
      }
      StartRealService(task, lifecycleRevision, ownedRuntime.value);
    }

    method OpenNow(newCtx: Ctx)
      modifies this`ctx, this`lifecycleRevision, this`ownedRuntime
      ensures View() == Opened(old(View()), newCtx)
    {
      ctx := Some(newCtx);
      lifecycleRevision := lifecycleRevision + 1;
      ownedRuntime := Some(Deferred(lifecycleRevision));
    }

    method StartNow(task: TaskId, newCtx: Ctx)
      modifies this, registry
      ensures View() == StartBody(old(View()), task, newCtx)
    {
      if ctx.Some? && ownedRuntime.Some? {
        promotions := promotions[task := Promotion(lifecycleRevision, registry.slot, startPromise, false)];
        return;
      }
      published := true;
      lifecycleRevision := lifecycleRevision + 1;
      ctx := Some(newCtx);
      ownedRuntime := Some(Deferred(lifecycleRevision));
      registry.slot := ownedRuntime;
    }

    method OnGetRuntime(task: TaskId, newCtx: Ctx)
      modifies this
      ensures View() == Step(old(View()), GetRuntime(task, newCtx))
      ensures old(Valid()) ==> Valid() && SlotOwned(View()) && OneInFlight(View())
    {
      hide Inv, SlotOwned, OneInFlight;
      KeepsSafe(View(), GetRuntime(task, newCtx));
      if stopPromise.Some? {
        waiters := waiters[task := Waiter(stopPromise.value.id, false, newCtx)];
      } else {
        GetRuntimeNow(task, newCtx);
      }
    }

    method OnStart(task: TaskId, newCtx: Ctx)
      modifies this, registry
      ensures View() == Step(old(View()), StartCall(task, newCtx))
      ensures old(Valid()) ==> Valid() && SlotOwned(View()) && OneInFlight(View())
      ensures old(Valid()) && old(stopPromise).None? && old(ctx).None? ==>
        published && registry.slot == ownedRuntime == Some(Deferred(lifecycleRevision))
    {
      hide Inv, SlotOwned, OneInFlight;
      KeepsSafe(View(), StartCall(task, newCtx));
      if stopPromise.Some? {
        waiters := waiters[task := Waiter(stopPromise.value.id, true, newCtx)];
      } else {
        StartNow(task, newCtx);
      }
    }

    method OnWake(task: TaskId)
      requires Enabled(View(), Wake(task))
      modifies this, registry
      ensures View() == Step(old(View()), Wake(task))
      ensures old(Valid()) ==> Valid() && SlotOwned(View()) && OneInFlight(View())
    {
      hide Inv, SlotOwned, OneInFlight;
      KeepsSafe(View(), Wake(task));
      var w := waiters[task];
      waiters := waiters - {task};
      if w.forStart {
        StartNow(task, w.ctx);
      } else {
        GetRuntimeNow(task, w.ctx);
      }
    }

    /** The stop that a call waited on rejected: the call throws. */
    method OnWaitRejected(task: TaskId)
      requires Enabled(View(), WaitRejected(task))
      modifies this`waiters
      ensures View() == Step(old(View()), WaitRejected(task))
      ensures old(Valid()) ==> Valid() && SlotOwned(View()) && OneInFlight(View())
    {
      hide Inv, SlotOwned, OneInFlight;
      KeepsSafe(View(), WaitRejected(task));
      waiters := waiters - {task};
    }

    method OnProxyCall(task: TaskId, revision: nat)
      modifies this
      ensures View() == Step(old(View()), ProxyCall(task, revision))
      ensures old(Valid()) ==> Valid() && SlotOwned(View()) && OneInFlight(View())
      ensures revision != old(lifecycleRevision) ==> View() == old(View())
    {
      hide Inv, SlotOwned, OneInFlight;
      KeepsSafe(View(), ProxyCall(task, revision));
      StartRealService(task, revision, Deferred(revision));
    }

    method OnLoad(p: StartId, ok: bool)
      requires Enabled(View(), Load(p, ok))
      modifies this`starts, this`realService
      ensures View() == Step(old(View()), Load(p, ok))
      ensures old(Valid()) ==> Valid() && SlotOwned(View()) && OneInFlight(View())
    {
      hide Inv, SlotOwned, OneInFlight;
      KeepsSafe(View(), Load(p, ok));
      if ok {
        starts := starts[p := starts[p].(phase := Running)];
        realService := Some(p);
      } else {
        starts := starts[p := starts[p].(phase := Rejected(false))];
      }
    }

    method OnPublish(p: StartId, serial: nat)
      requires Enabled(View(), Publish(p, serial))
      modifies this`starts, this`ownedRuntime, registry
      ensures View() == Step(old(View()), Publish(p, serial))
      ensures old(Valid()) ==> Valid() && SlotOwned(View()) && OneInFlight(View())
      ensures old(starts)[p].revision != old(lifecycleRevision) ==> View() == old(View())
      ensures old(Valid()) && Withdrawn(old(View())) ==> Withdrawn(View())
    {
      hide Inv, SlotOwned, OneInFlight;
      KeepsSafe(View(), Publish(p, serial));
      if Inv(View()) && Withdrawn(View()) { PublishStaysWithdrawn(View(), p, serial); }
      var k := starts[p];
      if lifecycleRevision != k.revision || ctx != Some(k.ctx) {
        return;
      }
      if published && registry.slot != Some(k.deferred) {
        return;
      }
      var runtime := Real(k.revision, p, serial);
      if published {
        registry.slot := Some(runtime);
      }
      starts := starts[p := k.(published := Some(runtime))];
      ownedRuntime := Some(runtime);
    }

    method OnRetract(p: StartId, serial: nat)
      requires Enabled(View(), Retract(p, serial))
      modifies registry
      ensures View() == Step(old(View()), Retract(p, serial))
      ensures old(Valid()) ==> Valid() && SlotOwned(View()) && OneInFlight(View())
      ensures Withdrawn(old(View())) ==> registry.slot == old(registry.slot)
    {
      hide Inv, SlotOwned, OneInFlight;
      KeepsSafe(View(), Retract(p, serial));
      registry.UnregisterOwned(Some(Real(starts[p].revision, p, serial)));
    }

    method OnInnerStartReturned(p: StartId, ok: bool)
      requires Enabled(View(), Finish(p, ok))
      modifies this`starts
      ensures View() == Step(old(View()), Finish(p, ok))
      ensures old(Valid()) ==> Valid() && SlotOwned(View()) && OneInFlight(View())
      ensures var k := old(starts)[p];
        starts[p].phase ==
          if ok && k.revision == lifecycleRevision && ctx == Some(k.ctx) && k.published.Some?
             && (!published || registry.slot == k.published)
          then Resolved(k.published.value) else Rejected(false)
    {
      hide Inv, SlotOwned, OneInFlight;
      KeepsSafe(View(), Finish(p, ok));
      var k := starts[p];
      var phase := Rejected(false);
      if ok {
        if lifecycleRevision == k.revision && ctx == Some(k.ctx) {
          if k.published.Some? && !(published && registry.slot != k.published) {
            phase := Resolved(k.published.value);
          }
        }
      }
      starts := starts[p := k.(phase := phase)];
    }

    method OnStartRejected(p: StartId)
      requires Enabled(View(), Catch(p))
      modifies this`starts, this`startPromise, this`realService
      ensures View() == Step(old(View()), Catch(p))
      ensures old(Valid()) ==> Valid() && SlotOwned(View()) && OneInFlight(View())
      ensures old(Valid()) && startPromise != old(startPromise) ==> old(startPromise) == Some(p)
    {
      hide Inv, SlotOwned, OneInFlight;
      KeepsSafe(View(), Catch(p));
      if Inv(View()) { LateFailureClearsOnlyItself(View(), p); }
      var revision := starts[p].revision;
      starts := starts[p := starts[p].(phase := Rejected(true))];
      if lifecycleRevision == revision {
        startPromise := None;
        realService := None;
      }
    }

    method OnStop()
      modifies this, registry
      ensures View() == Step(old(View()), StopCall)
      ensures old(Valid()) && Disciplined(old(View()), StopCall) ==> Valid() && SlotOwned(View()) && OneInFlight(View())
      ensures old(Valid()) && old(stopPromise).None? ==> Withdrawn(View()) && !published && ctx.None?
      ensures old(stopPromise).None? ==> lifecycleRevision > old(lifecycleRevision)
    {
      hide Inv, SlotOwned, OneInFlight, StopBody, Withdrawn, Disciplined;
      KeepsSafe(View(), StopCall);
      StopIsStrict(View());
      if stopPromise.None? {
        StopNow();
      }
    }

    method StopNow()
      modifies this, registry
      ensures View() == StopBody(old(View()))
    {
      lifecycleRevision := lifecycleRevision + 1;
      ctx := None;
      published := false;
      registry.UnregisterOwned(ownedRuntime);
      stopPromise := Some(Stop(stopCount, ownedRuntime, startPromise, AwaitingStart));
      stopCount := stopCount + 1;
    }

    method OnStopAwaited()
      requires Enabled(View(), StopAwaited)
      modifies this`stopPromise
      ensures View() == Step(old(View()), StopAwaited)
      ensures old(Valid()) ==> Valid() && SlotOwned(View()) && OneInFlight(View())
    {
      hide Inv, SlotOwned, OneInFlight;
      KeepsSafe(View(), StopAwaited);
      stopPromise := Some(stopPromise.value.(phase := StoppingService));
    }

    method OnServiceStopped(ok: bool)
      requires Enabled(View(), StopFinish(ok))
      modifies this, registry
      ensures View() == Step(old(View()), StopFinish(ok))
      ensures old(Valid()) ==> Valid() && SlotOwned(View()) && OneInFlight(View())
      ensures old(Valid()) ==> Withdrawn(View()) && startPromise.None?
    {
      hide Inv, SlotOwned, OneInFlight, StopCleanup, Withdrawn;
      KeepsSafe(View(), StopFinish(ok));
      CleanupIsStrict(View(), ok);
      CleanUpAfterStop(ok);
    }

    method CleanUpAfterStop(ok: bool)
      requires stopPromise.Some?
      modifies this, registry
      ensures View() == StopCleanup(old(View()), ok)
    {
      registry.UnregisterOwned(stopPromise.value.owned);
      ownedRuntime := None;
      realService := None;
      startPromise := None;
      if !ok {
        failedStops := failedStops + {stopPromise.value.id};
      }
      stopPromise := Some(stopPromise.value.(phase := Finished));
    }

    method OnStopSettled()
      requires Enabled(View(), StopClear)
      modifies this`stopPromise
      ensures View() == Step(old(View()), StopClear)
      ensures old(Valid()) ==> Valid() && SlotOwned(View()) && OneInFlight(View())
    {
      hide Inv, SlotOwned, OneInFlight;
      KeepsSafe(View(), StopClear);
      stopPromise := None;
    }

    method OnPromotionAwaited(task: TaskId)
      requires Enabled(View(), PromoteAwaited(task))
      modifies this`promotions
      ensures View() == Step(old(View()), PromoteAwaited(task))
      ensures old(Valid()) ==> Valid() && SlotOwned(View()) && OneInFlight(View())
    {
      hide Inv, SlotOwned, OneInFlight;
      KeepsSafe(View(), PromoteAwaited(task));
      var k := promotions[task];
      var rejected := k.awaited.Some? && starts[k.awaited.value].phase.Rejected?;
      var current := lifecycleRevision == k.revision && ctx.Some?
        && (registry.slot == k.previous || registry.slot == ownedRuntime);
      if rejected || !current {
        promotions := promotions - {task};
      } else {
        promotions := promotions[task := k.(promoting := true)];
      }
    }

    method OnPromoted(task: TaskId, ok: bool)
      requires Enabled(View(), PromoteFinish(task, ok))
      modifies this`promotions, this`published, registry
      ensures View() == Step(old(View()), PromoteFinish(task, ok))
      ensures old(Valid()) ==> Valid() && SlotOwned(View()) && OneInFlight(View())
      ensures registry.slot != old(registry.slot) ==>
        old(promotions)[task].revision == lifecycleRevision && registry.slot == ownedRuntime
    {
      hide Inv, SlotOwned, OneInFlight;
      KeepsSafe(View(), PromoteFinish(task, ok));
      var k := promotions[task];
      promotions := promotions - {task};
      var current := lifecycleRevision == k.revision && ctx.Some?
        && (registry.slot == k.previous || registry.slot == ownedRuntime);
      if ok && current {
        published := true;
        registry.slot := ownedRuntime;
      }
    }
  }

  lemma {:induction false} KeepsSafe(s: State, a: Action)
    requires Enabled(s, a)
    ensures Inv(s) && Disciplined(s, a) ==> Inv(Step(s, a)) && SlotOwned(Step(s, a)) && OneInFlight(Step(s, a))
  {
    hide Step, Enabled, Disciplined, OneInFlight;
    if Inv(s) && Disciplined(s, a) {
      StepKeepsInv(s, a);
      InvMeansOneInFlight(Step(s, a));
    }
  }

  lemma {:induction false} StopIsStrict(s: State)
    ensures s.stop.None? ==> var t := StopBody(s); !t.published && t.ctx.None? && t.revision > s.revision
    ensures Inv(s) && s.stop.None? ==> Withdrawn(StopBody(s))
  {
    if Inv(s) && s.stop.None? {
      StopWithdraws(s);
    }
  }

  lemma {:induction false} CleanupIsStrict(s: State, ok: bool)
    requires Enabled(s, StopFinish(ok))
    ensures StopCleanup(s, ok).start.None?
    ensures Inv(s) ==> Withdrawn(StopCleanup(s, ok))
  {
    if Inv(s) {
      FinishedStopIsWithdrawn(s, ok);
    }
  }
}
