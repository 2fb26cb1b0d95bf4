/** Ownership of the registry slot and uniqueness of the inner start, over every run. */
module AcpxRuns {
  import opened Options
  import opened AcpxLifecycle

  // ---- The invariant ------------------------------------------------------------------------

  predicate InFlight(k: Start) {
    k.phase.Loading? || k.phase.Running?
  }

  function RevisionOf(r: Runtime): nat
    requires Ours(r)
  {
    r.revision
  }

  /** A slot that holds a runtime of this service holds the owned runtime of the open revision. */
  predicate SlotOwned(s: State) {
    s.slot.Some? && Ours(s.slot.value) ==>
      s.published && s.ctx.Some? && s.slot == s.owned && RevisionOf(s.slot.value) == s.revision
  }

  predicate OwnedCurrent(s: State) {
    && (s.owned.Some? ==> Ours(s.owned.value))
    && (s.ctx.Some? ==> s.owned.Some? && RevisionOf(s.owned.value) == s.revision)
    && (s.published ==> s.ctx.Some?)
    && (s.stop.Some? && s.stop.value.owned.Some? ==> Ours(s.stop.value.owned.value))
  }

  /** While a stop runs the service is closed and the stop still sees the start it captured. */
  predicate StopConsistent(s: State) {
    && (s.stop.Some? ==>
        && s.ctx.None?
        && (s.stop.value.phase.Finished? ==> s.start.None?)
        && (!s.stop.value.phase.Finished? ==> s.stop.value.start == s.start)
        && (s.stop.value.phase.StoppingService? && s.start.Some? && s.start.value in s.starts ==>
            Settled(s.starts[s.start.value])))
    && (s.stop.None? && s.start.Some? ==> s.ctx.Some?)
    && (s.stop.None? || s.stop.value.id < s.stopCount)
    && FailuresPast(s)
  }

  /** Only stops that are over have failed. */
  predicate FailuresPast(s: State) {
    && (forall id :: id in s.failedStops ==> id < s.stopCount)
    && (s.stop.Some? && !s.stop.value.phase.Finished? ==> s.stop.value.id !in s.failedStops)
  }

  predicate StartConsistent(s: State, p: StartId)
    requires p in s.starts
  {
    var k := s.starts[p];
    && p < s.startCount && Ours(k.deferred)
    && k.revision <= s.revision && (s.ctx.None? ==> k.revision < s.revision)
    && (k.published.Some? ==> Ours(k.published.value) && RevisionOf(k.published.value) == k.revision)
    && (InFlight(k) ==> s.start == Some(p))
    && (k.phase == Rejected(false) && k.revision == s.revision ==> s.start == Some(p))
    && (k.phase.Resolved? && k.revision == s.revision ==> s.start == Some(p))
    && (s.start == Some(p) && s.ctx.Some? ==> k.revision == s.revision)
    && (s.start == Some(p) ==> !(k.phase == Rejected(true) && k.revision == s.revision))
  }

  predicate StartsConsistent(s: State) {
    && (s.start.Some? ==> s.start.value in s.starts)
    && (s.service.Some? ==> s.service == s.start)
    && forall p :: p in s.starts ==> StartConsistent(s, p)
  }

  /** Two starts of one revision never both resolve. */
  predicate UniqueResult(s: State) {
    forall p, q ::
      (p in s.starts && s.starts[p].phase.Resolved?
       && q in s.starts && s.starts[q].phase.Resolved?
       && s.starts[p].revision == s.starts[q].revision) ==> p == q
  }

  predicate CallersKnown(s: State) {
    forall t :: t in s.callers ==> s.callers[t] in s.starts
  }

  predicate WaitersPast(s: State) {
    forall t :: t in s.waiters ==>
      && s.waiters[t].stopId < s.stopCount
      && (s.stop.Some? && s.waiters[t].stopId !in s.failedStops ==> s.waiters[t].stopId == s.stop.value.id)
  }

  ghost predicate Inv(s: State) {
    && SlotOwned(s) && OwnedCurrent(s) && StopConsistent(s) && StartsConsistent(s)
    && UniqueResult(s) && CallersKnown(s) && WaitersPast(s)
  }

  lemma StartIdsBounded(s: State)
    requires StartsConsistent(s)
    ensures forall p :: p in s.starts ==> p < s.startCount
  {
    forall p | p in s.starts ensures p < s.startCount {
      assert StartConsistent(s, p);
    }
  }

  /** Joining the start in flight changes nothing but the list of callers. */
  lemma JoinKeeps(s: State, task: TaskId)
    requires Inv(s) && s.start.Some?
    ensures Inv(s.(callers := s.callers[task := s.start.value]))
  {
    var s' := s.(callers := s.callers[task := s.start.value]);
    forall p | p in s'.starts ensures StartConsistent(s', p) {
      assert StartConsistent(s, p);
    }
  }

  lemma NewStartKeeps(s: State, task: TaskId, deferred: Runtime)
    requires Inv(s) && s.ctx.Some? && s.stop.None? && s.start.None? && Ours(deferred)
    ensures Inv(StartReal(s, task, deferred))
  {
    var s' := StartReal(s, task, deferred);
    StartIdsBounded(s);
    assert StartsConsistent(s') by {
      forall p | p in s'.starts ensures StartConsistent(s', p) {
        if p in s.starts {
          assert StartConsistent(s, p);
        }
      }
    }
    assert UniqueResult(s');
    assert CallersKnown(s');
  }

  lemma {:induction false} StartRealKeeps(s: State, task: TaskId, deferred: Runtime)
    requires Inv(s) && s.ctx.Some? && s.stop.None? && Ours(deferred)
    ensures Inv(StartReal(s, task, deferred))
  {
    if s.start.Some? {
      JoinKeeps(s, task);
    } else {
      NewStartKeeps(s, task, deferred);
    }
  }

  /** Promotions in progress play no part in the invariant. */
  lemma PromotionsAside(s: State, promotions: map<TaskId, Promotion>)
    requires Inv(s)
    ensures Inv(s.(promotions := promotions))
  {
    var s' := s.(promotions := promotions);
    forall p | p in s'.starts ensures StartConsistent(s', p) {
      assert StartConsistent(s, p);
    }
  }

  lemma OpenKeeps(s: State, ctx: Ctx)
    requires Inv(s) && s.stop.None? && s.ctx.None?
    ensures Inv(Opened(s, ctx))
  {
    assert forall p :: p in s.starts ==> StartConsistent(s, p);
  }

  lemma {:induction false} RuntimeBodyKeeps(s: State, task: TaskId, ctx: Ctx)
    requires Inv(s) && s.stop.None?
    ensures Inv(RuntimeBody(s, task, ctx))
  {
    if s.ctx.None? {
      OpenKeeps(s, ctx);
    }
    var s1 := if s.ctx.Some? then s else Opened(s, ctx);
    StartRealKeeps(s1, task, s1.owned.value);
  }

  lemma StartBodyKeeps(s: State, task: TaskId, ctx: Ctx)
    requires Inv(s) && s.stop.None?
    ensures Inv(StartBody(s, task, ctx))
  {
    if s.ctx.None? {
      OpenKeeps(s, ctx);
    }
  }

  lemma LoadKeeps(s: State, p: StartId, ok: bool)
    requires Inv(s) && Enabled(s, Load(p, ok))
    ensures Inv(Step(s, Load(p, ok)))
  {
  }

  lemma PublishKeeps(s: State, p: StartId, serial: nat)
    requires Inv(s) && Enabled(s, Publish(p, serial))
    ensures Inv(Step(s, Publish(p, serial)))
  {
  }

  lemma RetractKeeps(s: State, p: StartId, serial: nat)
    requires Inv(s) && Enabled(s, Retract(p, serial))
    ensures Inv(Step(s, Retract(p, serial)))
  {
  }

  lemma FinishKeeps(s: State, p: StartId, ok: bool)
    requires Inv(s) && Enabled(s, Finish(p, ok))
    ensures Inv(Step(s, Finish(p, ok)))
  {
  }

  lemma {:induction false} CatchKeeps(s: State, p: StartId)
    requires Inv(s) && Enabled(s, Catch(p))
    ensures Inv(Step(s, Catch(p)))
  {
    var s1 := s.(starts := s.starts[p := s.starts[p].(phase := Rejected(true))]);
    assert StartConsistent(s, p);
    if s.revision != s.starts[p].revision {
      forall q | q in s1.starts ensures StartConsistent(s1, q) {
        assert StartConsistent(s, q);
      }
    } else {
      var s' := s1.(start := None, service := None);
      forall q | q in s'.starts ensures StartConsistent(s', q) {
        assert StartConsistent(s, q);
      }
      assert StopConsistent(s');
    }
  }

  lemma StopCallKeeps(s: State)
    requires Inv(s) && Enabled(s, StopCall) && Disciplined(s, StopCall)
    ensures Inv(Step(s, StopCall))
  {
  }

  lemma StopAwaitedKeeps(s: State)
    requires Inv(s) && Enabled(s, StopAwaited)
    ensures Inv(Step(s, StopAwaited))
  {
  }

  lemma StopFinishKeeps(s: State, ok: bool)
    requires Inv(s) && Enabled(s, StopFinish(ok))
    ensures Inv(Step(s, StopFinish(ok)))
  {
  }

  lemma StopClearKeeps(s: State)
    requires Inv(s) && Enabled(s, StopClear)
    ensures Inv(Step(s, StopClear))
  {
  }

  lemma {:induction false} PromoteAwaitedKeeps(s: State, t: TaskId)
    requires Inv(s) && Enabled(s, PromoteAwaited(t))
    ensures Inv(Step(s, PromoteAwaited(t)))
  {
    PromotionsAside(s, Step(s, PromoteAwaited(t)).promotions);
  }

  lemma PromoteFinishKeeps(s: State, t: TaskId, ok: bool)
    requires Inv(s) && Enabled(s, PromoteFinish(t, ok))
    ensures Inv(Step(s, PromoteFinish(t, ok)))
  {
  }

  lemma ForeignWriteKeeps(s: State, backend: Option<nat>)
    requires Inv(s) && Enabled(s, ForeignWrite(backend))
    ensures Inv(Step(s, ForeignWrite(backend)))
  {
  }

  /** A call that finds a stop in progress only joins its waiters. */
  lemma WaitKeeps(s: State, t: TaskId, w: Waiter)
    requires Inv(s) && s.stop.Some? && w.stopId == s.stop.value.id
    ensures Inv(s.(waiters := s.waiters[t := w]))
  {
    WaitersAside(s, s.waiters[t := w]);
  }

  lemma WaitersAside(s: State, waiters: map<TaskId, Waiter>)
    requires Inv(s) && WaitersPast(s.(waiters := waiters))
    ensures Inv(s.(waiters := waiters))
  {
    var s' := s.(waiters := waiters);
    forall p | p in s'.starts ensures StartConsistent(s', p) {
      assert StartConsistent(s, p);
    }
  }

  lemma {:induction false} GetRuntimeKeeps(s: State, t: TaskId, ctx: Ctx)
    requires Inv(s)
    ensures Inv(Step(s, GetRuntime(t, ctx)))
  {
    if s.stop.Some? {
      WaitKeeps(s, t, Waiter(s.stop.value.id, false, ctx));
    } else {
      RuntimeBodyKeeps(s, t, ctx);
    }
  }

  lemma StartCallKeeps(s: State, t: TaskId, ctx: Ctx)
    requires Inv(s)
    ensures Inv(Step(s, StartCall(t, ctx)))
  {
    if s.stop.Some? {
      WaitKeeps(s, t, Waiter(s.stop.value.id, true, ctx));
    } else {
      StartBodyKeeps(s, t, ctx);
    }
  }

  lemma {:induction false} WakeKeeps(s: State, t: TaskId)
    requires Inv(s) && Enabled(s, Wake(t))
    ensures Inv(Step(s, Wake(t)))
  {
    var s1 := s.(waiters := s.waiters - {t});
    WaitersAside(s, s.waiters - {t});
    if s.waiters[t].forStart {
      StartBodyKeeps(s1, t, s.waiters[t].ctx);
    } else {
      RuntimeBodyKeeps(s1, t, s.waiters[t].ctx);
    }
  }

  lemma {:induction false} ProxyCallKeeps(s: State, t: TaskId, revision: nat)
    requires Inv(s)
    ensures Inv(Step(s, ProxyCall(t, revision)))
  {
    if s.revision == revision && s.ctx.Some? {
      StartRealKeeps(s, t, Deferred(revision));
    }
  }

  lemma {:induction false} StepKeepsInv(s: State, a: Action)
    requires Inv(s) && Enabled(s, a) && Disciplined(s, a)
    ensures Inv(Step(s, a))
  {
    match a
    case GetRuntime(t, ctx) => GetRuntimeKeeps(s, t, ctx);
    case StartCall(t, ctx) => StartCallKeeps(s, t, ctx);
    case Wake(t) => WakeKeeps(s, t);
    case WaitRejected(t) => WaitersAside(s, s.waiters - {t});
    case ProxyCall(t, revision) => ProxyCallKeeps(s, t, revision);
    case Load(p, ok) => LoadKeeps(s, p, ok);
    case Publish(p, serial) => PublishKeeps(s, p, serial);
    case Retract(p, serial) => RetractKeeps(s, p, serial);
    case Finish(p, ok) => FinishKeeps(s, p, ok);
    case Catch(p) => CatchKeeps(s, p);
    case StopCall => StopCallKeeps(s);
    case StopAwaited => StopAwaitedKeeps(s);
    case StopFinish(ok) => StopFinishKeeps(s, ok);
    case StopClear => StopClearKeeps(s);
    case PromoteAwaited(t) => PromoteAwaitedKeeps(s, t);
    case PromoteFinish(t, ok) => PromoteFinishKeeps(s, t, ok);
    case ForeignWrite(backend) => ForeignWriteKeeps(s, backend);
  }

  lemma BodiesGrow(s: State, task: TaskId, ctx: Ctx)
    ensures RuntimeBody(s, task, ctx).revision >= s.revision && StartBody(s, task, ctx).revision >= s.revision
    ensures s.slot.Some? ==> RuntimeBody(s, task, ctx).slot.Some? && StartBody(s, task, ctx).slot.Some?
  {
    hide Opened, StartReal;
    OpenedFrame(s, ctx);
    var s1 := if s.ctx.Some? then s else Opened(s, ctx);
    if s1.owned.Some? {
      StartRealFrame(s1, task, s1.owned.value);
    }
  }

  lemma RevisionGrows(s: State, a: Action)
    requires Enabled(s, a)
    ensures Step(s, a).revision >= s.revision
  {
    hide RuntimeBody, StartBody;
    match a
    case GetRuntime(t, ctx) => BodiesGrow(s, t, ctx);
    case StartCall(t, ctx) => BodiesGrow(s, t, ctx);
    case Wake(t) => BodiesGrow(s.(waiters := s.waiters - {t}), t, s.waiters[t].ctx);
    case _ =>
  }

  lemma {:induction false} RunKeepsInv(s: State, acts: seq<Action>)
    requires Inv(s) && IsDisciplinedRun(s, acts)
    ensures IsRun(s, acts) && Inv(Run(s, acts)) && Run(s, acts).revision >= s.revision
    decreases |acts|
  {
    DisciplinedIsRun(s, acts);
    if acts != [] {
      StepKeepsInv(s, acts[0]);
      RevisionGrows(s, acts[0]);
      RunKeepsInv(Step(s, acts[0]), acts[1..]);
    }
  }

  // ---- The slot -----------------------------------------------------------------------------

  /** In every reachable state, a runtime of this service in the slot is the owned runtime of the
      current revision of a published, open service. */
  lemma SlotHoldsOnlyTheOwnedRuntime(backend: Option<nat>, acts: seq<Action>)
    requires IsDisciplinedRun(Initially(backend), acts)
    ensures IsRun(Initially(backend), acts)
    ensures var s := Run(Initially(backend), acts);
      s.slot.Some? && Ours(s.slot.value) ==>
        s.published && s.ctx.Some? && s.slot == s.owned && RevisionOf(s.slot.value) == s.revision
  {
    RunKeepsInv(Initially(backend), acts);
  }

  /** No runtime of this service is registered. */
  predicate Withdrawn(s: State) {
    s.slot.None? || s.slot.value.Foreign?
  }

  lemma StopWithdraws(s: State)
    requires Inv(s) && s.stop.None?
    ensures Withdrawn(Step(s, StopCall))
  {
  }

  lemma FinishedStopIsWithdrawn(s: State, ok: bool)
    requires Inv(s) && Enabled(s, StopFinish(ok))
    ensures Withdrawn(Step(s, StopFinish(ok)))
  {
  }

  /** A publication registers only where a runtime of this service stood. */
  lemma PublishStaysWithdrawn(s: State, p: StartId, serial: nat)
    requires Inv(s) && Enabled(s, Publish(p, serial)) && Withdrawn(s)
    ensures Withdrawn(Step(s, Publish(p, serial)))
  {
    assert StartConsistent(s, p);
  }

  /** Once `stop` has begun, no runtime of the revision it closed, or of an earlier one, is ever in
      the slot again. */
  lemma StoppedRuntimesNeverReturn(s: State, later: seq<Action>)
    requires Inv(s) && s.stop.None? && Disciplined(s, StopCall)
    requires IsDisciplinedRun(Step(s, StopCall), later)
    ensures IsRun(Step(s, StopCall), later)
    ensures var t := Run(Step(s, StopCall), later);
      t.slot.Some? && Ours(t.slot.value) ==> RevisionOf(t.slot.value) > s.revision
  {
    StepKeepsInv(s, StopCall);
    RunKeepsInv(Step(s, StopCall), later);
  }

  /** Only a foreign plugin removes a foreign backend; the service may at most replace it. */
  lemma {:induction false} ForeignBackendNeverUnregistered(s: State, a: Action)
    requires Inv(s) && Enabled(s, a) && s.slot.Some? && s.slot.value.Foreign?
    ensures Step(s, a).slot.None? ==> a.ForeignWrite?
  {
    if !a.ForeignWrite? {
      UnregisterSparesForeign(s, a);
    }
  }

  lemma {:induction false} UnregisterSparesForeign(s: State, a: Action)
    requires OwnedCurrent(s) && Enabled(s, a) && !a.ForeignWrite?
    requires s.slot.Some? && s.slot.value.Foreign?
    ensures Step(s, a).slot.Some?
  {
    hide RuntimeBody, StartBody;
    match a
    case GetRuntime(t, ctx) => BodiesGrow(s, t, ctx);
    case StartCall(t, ctx) => BodiesGrow(s, t, ctx);
    case Wake(t) => BodiesGrow(s.(waiters := s.waiters - {t}), t, s.waiters[t].ctx);
    case _ =>
  }

  // ---- The inner start ----------------------------------------------------------------------

  predicate OneInFlight(s: State) {
    forall p, q :: p in s.starts && q in s.starts && InFlight(s.starts[p]) && InFlight(s.starts[q]) ==> p == q
  }

  lemma InvMeansOneInFlight(s: State)
    requires Inv(s)
    ensures OneInFlight(s)
  {
    forall p, q | p in s.starts && q in s.starts && InFlight(s.starts[p]) && InFlight(s.starts[q]) ensures p == q {
      assert StartConsistent(s, p) && StartConsistent(s, q);
    }
  }

  /** At most one inner start is in flight in any reachable state. */
  lemma AtMostOneStartInFlight(backend: Option<nat>, acts: seq<Action>, p: StartId, q: StartId)
    requires IsDisciplinedRun(Initially(backend), acts)
    ensures IsRun(Initially(backend), acts)
    ensures var s := Run(Initially(backend), acts);
      p in s.starts && q in s.starts && InFlight(s.starts[p]) && InFlight(s.starts[q]) ==> p == q
  {
    RunKeepsInv(Initially(backend), acts);
    var s := Run(Initially(backend), acts);
    assert p in s.starts ==> StartConsistent(s, p);
    assert q in s.starts ==> StartConsistent(s, q);
  }

  /** What a caller of `getRuntime` or of a deferred proxy obtains, once it does. */
  function Obtained(s: State, t: TaskId): Option<Runtime> {
    if t in s.callers && s.callers[t] in s.starts && s.starts[s.callers[t]].phase.Resolved?
    then Some(s.starts[s.callers[t]].phase.runtime) else None
  }

  /** Callers that obtain a runtime within one revision all obtain the same one. */
  lemma CallersShareTheRuntime(backend: Option<nat>, acts: seq<Action>, t: TaskId, u: TaskId)
    requires IsDisciplinedRun(Initially(backend), acts)
    ensures IsRun(Initially(backend), acts)
    ensures var s := Run(Initially(backend), acts);
      Obtained(s, t).Some? && Obtained(s, u).Some?
      && s.starts[s.callers[t]].revision == s.starts[s.callers[u]].revision
      ==> Obtained(s, t) == Obtained(s, u)
  {
    RunKeepsInv(Initially(backend), acts);
  }

  /** A failing start that clears the shared promise or service clears its own: one of another
      revision is never touched. */
  lemma LateFailureClearsOnlyItself(s: State, p: StartId)
    requires Inv(s) && Enabled(s, Catch(p))
    ensures var s' := Step(s, Catch(p));
      && (s'.start != s.start ==> s.start == Some(p) && s'.start.None?)
      && (s'.service != s.service ==> s.service == Some(p) && s'.service.None?)
      && (s.starts[p].revision != s.revision ==> s'.start == s.start && s'.service == s.service)
  {
    assert StartConsistent(s, p);
  }

  // ---- Without the discipline on stop -------------------------------------------------------

  /** A call of `start` and a second call wait on a first stop. */
  function Waiting(second: Action): seq<Action> {
    [StopCall, StartCall(1, 7), second]
  }

  const Stopped: seq<Action> := [StopAwaited, StopFinish(true), StopClear]

  /** The first call goes on, and `stop` is called from within it: the registry or the logger, which it
      calls before it returns, may do so. The second call goes on under that stop. */
  const Reentrant: seq<Action> := [Wake(1), StopCall, Wake(2)]

  function Overlap(second: Action): seq<Action> {
    Waiting(second) + Stopped + Reentrant + Stopped
  }

  lemma RunThree(s: State, a: Action, b: Action, c: Action)
    ensures Enabled(s, a) && Enabled(Step(s, a), b) && Enabled(Step(Step(s, a), b), c) ==>
      IsRun(s, [a, b, c]) && Run(s, [a, b, c]) == Step(Step(Step(s, a), b), c)
  {
    hide Step, Enabled;
    if Enabled(s, a) && Enabled(Step(s, a), b) && Enabled(Step(Step(s, a), b), c) {
      RunTwo(Step(s, a), b, c);
      assert [a, b, c][1..] == [b, c];
    }
  }

  /** A stop with nothing to wait for runs to its end and clears the shared promise. */
  lemma StoppedRun(s: State)
    requires s.stop.Some? && s.stop.value.phase.AwaitingStart? && s.stop.value.start.None?
    ensures IsRun(s, Stopped)
    ensures Run(s, Stopped) ==
      s.(slot := Unregister(s.slot, s.stop.value.owned), owned := None, service := None, start := None, stop := None)
  {
    RunThree(s, StopAwaited, StopFinish(true), StopClear);
  }

  predicate Waits(second: Action) {
    second == StartCall(2, 8) || second == GetRuntime(2, 8)
  }

  /** The state in which both calls are about to go on. */
  function Waited(second: Action): State {
    Initially(None).(revision := 1, stopCount := 1,
      waiters := map[1 := Waiter(0, true, 7), 2 := Waiter(0, second.StartCall?, 8)])
  }

  lemma WaitingRun(second: Action)
    requires Waits(second)
    ensures IsRun(Initially(None), Waiting(second) + Stopped)
    ensures Run(Initially(None), Waiting(second) + Stopped) == Waited(second)
  {
    RunThree(Initially(None), StopCall, StartCall(1, 7), second);
    StoppedRun(Run(Initially(None), Waiting(second)));
    RunConcat(Initially(None), Waiting(second), Stopped);
  }

  lemma ReentrantRun(second: Action)
    requires Waits(second)
    ensures IsRun(Waited(second), Reentrant)
    ensures var t := Run(Waited(second), Reentrant);
      && t.ctx == Some(8) && t.revision == 4 && t.startCount == (if second.StartCall? then 0 else 1)
      && t.stop == Some(Stop(1, Some(Deferred(2)), None, AwaitingStart))
      && t.slot == (if second.StartCall? then Some(Deferred(4)) else None)
      && (second.GetRuntime? ==> 0 in t.starts && t.starts[0].phase.Loading?)
  {
    RunThree(Waited(second), Wake(1), StopCall, Wake(2));
  }

  lemma OverlapRun(second: Action)
    requires Waits(second)
    ensures IsRun(Initially(None), Overlap(second))
    ensures var t := Run(Initially(None), Overlap(second));
      && t.ctx == Some(8) && t.revision == 4 && t.owned.None? && t.start.None? && t.stop.None?
      && t.startCount == (if second.StartCall? then 0 else 1)
      && t.slot == (if second.StartCall? then Some(Deferred(4)) else None)
      && (second.GetRuntime? ==> 0 in t.starts && t.starts[0].phase.Loading?)
  {
    hide Waiting, Waited;
    WaitingRun(second);
    ReentrantRun(second);
    RunConcat(Initially(None), Waiting(second) + Stopped, Reentrant);
    StoppedRun(Run(Waited(second), Reentrant));
    RunConcat(Initially(None), Waiting(second) + Stopped + Reentrant, Stopped);
  }

  /** The discipline is needed for the slot: when a second `start` call goes on under the stop that the first
      one brought about, that stop forgets the runtime which is then registered. */
  lemma {:induction false} OverlappingStopsBreakTheSlot()
    ensures IsRun(Initially(None), Overlap(StartCall(2, 8)))
    ensures var t := Run(Initially(None), Overlap(StartCall(2, 8)));
      t.slot == Some(Deferred(4)) && Ours(t.slot.value) && t.owned.None? && !SlotOwned(t)
  {
    OverlapRun(StartCall(2, 8));
  }

  lemma BreaksOneInFlight(s: State)
    requires 0 in s.starts && InFlight(s.starts[0]) && 1 in s.starts && InFlight(s.starts[1])
    ensures !OneInFlight(s)
  {
  }

  /** An open service that lost its runtime and its shared promise opens again and begins another start. */
  lemma {:induction false} StartsAgain(s: State)
    requires s.ctx.Some? && s.owned.None? && s.start.None? && s.stop.None? && s.startCount == 1
    requires 0 in s.starts && s.starts[0].phase.Loading?
    ensures Enabled(s, StartCall(3, 9)) && Enabled(Step(s, StartCall(3, 9)), GetRuntime(4, 9))
    ensures var t := Step(Step(s, StartCall(3, 9)), GetRuntime(4, 9));
      0 in t.starts && InFlight(t.starts[0]) && 1 in t.starts && InFlight(t.starts[1])
  {
  }

  /** The discipline is needed for uniqueness: when a `getRuntime` call goes on under such a stop, that stop
      forgets its inner start, and the next `start` and `getRuntime` begin another. */
  lemma OverlappingStopsBreakUniqueness()
    ensures IsRun(Initially(None), Overlap(GetRuntime(2, 8)) + [StartCall(3, 9), GetRuntime(4, 9)])
    ensures var t := Run(Initially(None), Overlap(GetRuntime(2, 8)) + [StartCall(3, 9), GetRuntime(4, 9)]);
      0 in t.starts && InFlight(t.starts[0]) && 1 in t.starts && InFlight(t.starts[1]) && !OneInFlight(t)
  {
    hide Overlap, OneInFlight, Step, Enabled;
    OverlapRun(GetRuntime(2, 8));
    var s := Run(Initially(None), Overlap(GetRuntime(2, 8)));
    StartsAgain(s);
    RunTwo(s, StartCall(3, 9), GetRuntime(4, 9));
    RunConcat(Initially(None), Overlap(GetRuntime(2, 8)), [StartCall(3, 9), GetRuntime(4, 9)]);
    BreaksOneInFlight(Run(Initially(None), Overlap(GetRuntime(2, 8)) + [StartCall(3, 9), GetRuntime(4, 9)]));
  }

  lemma RunTwo(s: State, a: Action, b: Action)
    ensures Enabled(s, a) && Enabled(Step(s, a), b) ==> IsRun(s, [a, b]) && Run(s, [a, b]) == Step(Step(s, a), b)
  {
    hide Step, Enabled;
    if Enabled(s, a) && Enabled(Step(s, a), b) {
      RunOne(Step(s, a), b);
      assert [a, b][1..] == [b];
    }
  }
}
