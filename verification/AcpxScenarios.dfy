/**
  What the lazy lifecycle is for: a caller obtains the runtime of the start that it began or joined, a
  failing start is forgotten, and `start` puts a runtime into the registry slot.
*/
module AcpxScenarios {
  import opened Options
  import opened AcpxLifecycle
  import opened AcpxRuns

  // ---- Steps that only join ------------------------------------------------------------------

  /** A call of another task that asks for a runtime. */
  predicate Joins(a: Action, t: TaskId) {
    (a.GetRuntime? || a.ProxyCall?) && a.task != t
  }

  /** The task waits for the start `p`, which is the shared one of an open service. */
  predicate WaitsFor(s: State, t: TaskId, p: StartId) {
    s.stop.None? && s.ctx.Some? && s.start == Some(p) && p in s.starts && t in s.callers && s.callers[t] == p
  }

  /** The two states differ in their callers only, and the task waits for `p` in both. */
  predicate SameFor(s: State, s': State, t: TaskId, p: StartId) {
    s' == s.(callers := s'.callers) && WaitsFor(s, t, p) && WaitsFor(s', t, p)
  }

  lemma {:induction false} JoinStep(s: State, a: Action, t: TaskId, p: StartId)
    requires WaitsFor(s, t, p) && Joins(a, t)
    ensures Enabled(s, a) && SameFor(s, Step(s, a), t, p)
  {
  }

  lemma {:induction false} JoiningRun(s: State, acts: seq<Action>, t: TaskId, p: StartId)
    requires WaitsFor(s, t, p) && forall a :: a in acts ==> Joins(a, t)
    ensures IsRun(s, acts) && SameFor(s, Run(s, acts), t, p)
    decreases |acts|
  {
    if acts != [] {
      assert acts[0] in acts;
      JoinStep(s, acts[0], t, p);
      hide Step, Enabled, WaitsFor;
      var s1 := Step(s, acts[0]);
      assert s1 == s.(callers := s1.callers) && WaitsFor(s1, t, p);
      JoiningRun(s1, acts[1..], t, p);
    }
  }

  /** A step, and calls of other tasks after it. */
  lemma {:induction false} StepThenJoins(s: State, a: Action, joins: seq<Action>, t: TaskId, p: StartId)
    requires Enabled(s, a) && WaitsFor(Step(s, a), t, p) && forall j :: j in joins ==> Joins(j, t)
    ensures IsRun(s, [a] + joins) && SameFor(Step(s, a), Run(s, [a] + joins), t, p)
  {
    hide Step, Enabled;
    RunOne(s, a);
    JoiningRun(Step(s, a), joins, t, p);
    RunConcat(s, [a], joins);
  }

  // ---- Beginning a start ----------------------------------------------------------------------

  /** The revision under which a call that opens the service, or finds it open, begins its start. */
  function OpenRevision(s: State): nat {
    if s.ctx.Some? then s.revision else s.revision + 1
  }

  /** Some plugin took the slot of a published service, so that nothing may be published over it. */
  predicate LostSlot(s: State) {
    s.published && s.slot != s.owned
  }

  /** The start `p` as it was begun, in the phase it has reached; the service is as it was, otherwise. */
  predicate Begun(s0: State, s: State, t: TaskId, p: StartId, phase: Phase, published: Option<Runtime>) {
    && WaitsFor(s, t, p) && s.startCount == p + 1 && s.revision == OpenRevision(s0) && s.published == s0.published
    && var k := s.starts[p];
    && k.revision == s.revision && s.ctx == Some(k.ctx) && k.phase == phase && k.published == published
    && (published.None? ==> s.owned == Some(k.deferred) && s.slot == s0.slot)
    && (published.Some? ==> s.owned == published && s.slot == if s.published then published else s0.slot)
    && (s0.ctx.Some? ==> s0.owned == Some(k.deferred))
  }

  /** A `getRuntime` call on an idle service begins a start. */
  lemma {:induction false} CallBegins(s: State, t: TaskId, ctx: Ctx)
    requires Inv(s) && s.stop.None? && s.start.None?
    ensures Begun(s, Step(s, GetRuntime(t, ctx)), t, s.startCount, Loading, None)
  {
    assert OwnedCurrent(s) && StopConsistent(s);
    hide Inv;
  }

  lemma {:induction false} LoadGoesOn(s0: State, s: State, t: TaskId, p: StartId, ok: bool)
    requires Begun(s0, s, t, p, Loading, None)
    ensures Enabled(s, Load(p, ok))
    ensures Begun(s0, Step(s, Load(p, ok)), t, p, if ok then Running else Rejected(false), None)
  {
  }

  lemma {:induction false} PublishGoesOn(s0: State, s: State, t: TaskId, p: StartId, n: nat)
    requires Begun(s0, s, t, p, Running, None) && (s0.published ==> s0.ctx.Some?)
    ensures Enabled(s, Publish(p, n))
    ensures Begun(s0, Step(s, Publish(p, n)), t, p, Running,
      if LostSlot(s0) then None else Some(Real(OpenRevision(s0), p, n)))
  {
  }

  /** The inner start resolves with what it published, exactly when it returned normally and published. */
  lemma {:induction false} FinishGoesOn(
    s0: State, s: State, t: TaskId, p: StartId, published: Option<Runtime>, ok: bool)
    requires Begun(s0, s, t, p, Running, published)
    ensures Enabled(s, Finish(p, ok))
    ensures Begun(s0, Step(s, Finish(p, ok)), t, p,
      if ok && published.Some? then Resolved(published.value) else Rejected(false), published)
  {
  }

  lemma {:induction false} JoinsGoOn(
    s0: State, s: State, s': State, t: TaskId, p: StartId, phase: Phase, published: Option<Runtime>)
    requires Begun(s0, s, t, p, phase, published) && SameFor(s, s', t, p)
    ensures Begun(s0, s', t, p, phase, published)
  {
  }

  // ---- Whole calls ----------------------------------------------------------------------------

  /** A caller's start with the calls of other tasks that come between its steps. */
  datatype Between = Between(begun: seq<Action>, loaded: seq<Action>, published: seq<Action>, finished: seq<Action>)

  predicate OnlyJoins(b: Between, t: TaskId) {
    forall a :: a in b.begun + b.loaded + b.published + b.finished ==> Joins(a, t)
  }

  /** The steps up to the end of loading. */
  function Loads(t: TaskId, ctx: Ctx, p: StartId, ok: bool, b: Between): seq<Action> {
    ([GetRuntime(t, ctx)] + b.begun) + ([Load(p, ok)] + b.loaded)
  }

  lemma {:induction false} LoadedRun(s: State, t: TaskId, ctx: Ctx, ok: bool, b: Between)
    requires Inv(s) && s.stop.None? && s.start.None? && OnlyJoins(b, t)
    ensures var acts := Loads(t, ctx, s.startCount, ok, b);
      IsRun(s, acts) && Begun(s, Run(s, acts), t, s.startCount, if ok then Running else Rejected(false), None)
  {
    hide Inv, Begun, SameFor, Step, Enabled;
    var p := s.startCount;
    CallEnabled(s, t, ctx);
    CallBegins(s, t, ctx);
    BegunWaits(s, Step(s, GetRuntime(t, ctx)), t, p, Loading, None);
    StepThenJoins(s, GetRuntime(t, ctx), b.begun, t, p);
    var s1 := Run(s, [GetRuntime(t, ctx)] + b.begun);
    JoinsGoOn(s, Step(s, GetRuntime(t, ctx)), s1, t, p, Loading, None);
    LoadGoesOn(s, s1, t, p, ok);
    var phase := if ok then Running else Rejected(false);
    BegunWaits(s, Step(s1, Load(p, ok)), t, p, phase, None);
    StepThenJoins(s1, Load(p, ok), b.loaded, t, p);
    JoinsGoOn(s, Step(s1, Load(p, ok)), Run(s1, [Load(p, ok)] + b.loaded), t, p, phase, None);
    RunConcat(s, [GetRuntime(t, ctx)] + b.begun, [Load(p, ok)] + b.loaded);
  }

  lemma BegunWaits(s0: State, s: State, t: TaskId, p: StartId, phase: Phase, published: Option<Runtime>)
    requires Begun(s0, s, t, p, phase, published)
    ensures WaitsFor(s, t, p) && s.starts[p].phase == phase
    ensures Obtained(s, t) == if phase.Resolved? then Some(phase.runtime) else None
  {
  }

  lemma CallEnabled(s: State, t: TaskId, ctx: Ctx)
    ensures Enabled(s, GetRuntime(t, ctx))
  {
  }

  lemma PublishedIsOpen(s: State)
    requires Inv(s)
    ensures s.published ==> s.ctx.Some?
  {
  }

  /** The steps of a whole start, which returns normally or fails. */
  function Starts(t: TaskId, ctx: Ctx, p: StartId, n: nat, ok: bool, b: Between): seq<Action> {
    Loads(t, ctx, p, true, b) + ([Publish(p, n)] + b.published) + ([Finish(p, ok)] + b.finished)
  }

  /** What the start publishes: nothing where a plugin holds the slot of a published service. */
  function Publishes(s: State, n: nat): Option<Runtime> {
    if LostSlot(s) then None else Some(Real(OpenRevision(s), s.startCount, n))
  }

  function EndPhase(s: State, n: nat, ok: bool): Phase {
    if ok && !LostSlot(s) then Resolved(Real(OpenRevision(s), s.startCount, n)) else Rejected(false)
  }

  lemma {:induction false} StartedRun(s: State, t: TaskId, ctx: Ctx, n: nat, ok: bool, b: Between)
    requires Inv(s) && s.stop.None? && s.start.None? && OnlyJoins(b, t)
    ensures var acts := Starts(t, ctx, s.startCount, n, ok, b);
      IsRun(s, acts) && Begun(s, Run(s, acts), t, s.startCount, EndPhase(s, n, ok), Publishes(s, n))
  {
    hide Begun, SameFor, Step, Enabled, Loads, LostSlot, Inv;
    var p := s.startCount;
    PublishedIsOpen(s);
    LoadedRun(s, t, ctx, true, b);
    var s2 := Run(s, Loads(t, ctx, p, true, b));
    var published := Publishes(s, n);
    PublishGoesOn(s, s2, t, p, n);
    BegunWaits(s, Step(s2, Publish(p, n)), t, p, Running, published);
    StepThenJoins(s2, Publish(p, n), b.published, t, p);
    var s3 := Run(s2, [Publish(p, n)] + b.published);
    JoinsGoOn(s, Step(s2, Publish(p, n)), s3, t, p, Running, published);
    RunConcat(s, Loads(t, ctx, p, true, b), [Publish(p, n)] + b.published);
    FinishGoesOn(s, s3, t, p, published, ok);
    BegunWaits(s, Step(s3, Finish(p, ok)), t, p, EndPhase(s, n, ok), published);
    StepThenJoins(s3, Finish(p, ok), b.finished, t, p);
    var s4 := Run(s3, [Finish(p, ok)] + b.finished);
    JoinsGoOn(s, Step(s3, Finish(p, ok)), s4, t, p, EndPhase(s, n, ok), published);
    RunConcat(s, Loads(t, ctx, p, true, b) + ([Publish(p, n)] + b.published), [Finish(p, ok)] + b.finished);
  }

  /**
    A caller on an idle service obtains the runtime that its start publishes exactly when the start returns
    normally, unless a plugin holds the slot of a published service, whatever other callers join meanwhile.
  */
  lemma {:induction false} CallerObtainsIff(s: State, t: TaskId, ctx: Ctx, n: nat, ok: bool, b: Between)
    requires Inv(s) && s.stop.None? && s.start.None? && OnlyJoins(b, t)
    ensures var acts := Starts(t, ctx, s.startCount, n, ok, b);
      && IsRun(s, acts)
      && Obtained(Run(s, acts), t) ==
           (if ok && !LostSlot(s) then Some(Real(OpenRevision(s), s.startCount, n)) else None)
      && (ok && !LostSlot(s) ==> Run(s, acts).owned == Obtained(Run(s, acts), t))
      && (ok && !LostSlot(s) && s.published ==> Run(s, acts).slot == Obtained(Run(s, acts), t))
  {
    hide Inv, Begun, LostSlot, Starts;
    StartedRun(s, t, ctx, n, ok, b);
    var s4 := Run(s, Starts(t, ctx, s.startCount, n, ok, b));
    BegunWaits(s, s4, t, s.startCount, EndPhase(s, n, ok), Publishes(s, n));
    if !LostSlot(s) {
      BegunOwns(s, s4, t, s.startCount, EndPhase(s, n, ok), Publishes(s, n));
    }
  }

  lemma BegunOwns(s0: State, s: State, t: TaskId, p: StartId, phase: Phase, published: Option<Runtime>)
    requires Begun(s0, s, t, p, phase, published) && published.Some?
    ensures s.owned == published && (s0.published ==> s.slot == published)
  {
  }

  /** When the module does not load the caller obtains nothing; once the failure is caught, nothing is left of
      the start, and the next call begins a new one. */
  lemma {:induction false} FailedLoadIsForgotten(s: State, t: TaskId, ctx: Ctx, b: Between, u: TaskId, ctx': Ctx)
    requires Inv(s) && s.stop.None? && s.start.None? && OnlyJoins(b, t)
    ensures var acts := Loads(t, ctx, s.startCount, false, b);
      && IsRun(s, acts) && Obtained(Run(s, acts), t).None?
      && Enabled(Run(s, acts), Catch(s.startCount))
      && var caught := Step(Run(s, acts), Catch(s.startCount));
      && caught.start.None? && caught.service.None?
      && var next := Step(caught, GetRuntime(u, ctx'));
      && u in next.callers && next.callers[u] == s.startCount + 1
      && next.start == Some(s.startCount + 1) && s.startCount + 1 in next.starts
      && next.starts[s.startCount + 1].phase.Loading?
  {
    LoadedRun(s, t, ctx, false, b);
    var s2 := Run(s, Loads(t, ctx, s.startCount, false, b));
    BegunWaits(s, s2, t, s.startCount, Rejected(false), None);
    CaughtIsForgotten(s, s2, t, s.startCount, None, u, ctx');
  }

  /** The same when the inner start fails, or a plugin took the slot. */
  lemma {:induction false} FailedStartIsForgotten(
    s: State, t: TaskId, ctx: Ctx, n: nat, ok: bool, b: Between, u: TaskId, ctx': Ctx)
    requires Inv(s) && s.stop.None? && s.start.None? && OnlyJoins(b, t) && !(ok && !LostSlot(s))
    ensures var acts := Starts(t, ctx, s.startCount, n, ok, b);
      && IsRun(s, acts) && Obtained(Run(s, acts), t).None?
      && Enabled(Run(s, acts), Catch(s.startCount))
      && var next := Step(Step(Run(s, acts), Catch(s.startCount)), GetRuntime(u, ctx'));
      && u in next.callers && next.callers[u] == s.startCount + 1
      && s.startCount + 1 in next.starts && next.starts[s.startCount + 1].phase.Loading?
  {
    hide Inv, Begun, Step, Enabled, Starts, LostSlot;
    StartedRun(s, t, ctx, n, ok, b);
    var s4 := Run(s, Starts(t, ctx, s.startCount, n, ok, b));
    BegunWaits(s, s4, t, s.startCount, Rejected(false), Publishes(s, n));
    CaughtIsForgotten(s, s4, t, s.startCount, Publishes(s, n), u, ctx');
  }

  lemma {:induction false} CaughtIsForgotten(
    s0: State, s: State, t: TaskId, p: StartId, published: Option<Runtime>, u: TaskId, ctx': Ctx)
    requires Begun(s0, s, t, p, Rejected(false), published)
    ensures Enabled(s, Catch(p))
    ensures var caught := Step(s, Catch(p));
      && caught.start.None? && caught.service.None?
      && var next := Step(caught, GetRuntime(u, ctx'));
      && u in next.callers && next.callers[u] == p + 1 && next.start == Some(p + 1)
      && p + 1 in next.starts && next.starts[p + 1].phase.Loading?
  {
  }

  // ---- Registration ---------------------------------------------------------------------------

  /** `start` on a closed service registers the deferred runtime of a new revision, and begins nothing. */
  lemma {:induction false} StartRegistersLazily(s: State, t: TaskId, ctx: Ctx)
    requires Inv(s) && s.stop.None? && s.ctx.None?
    ensures var t := Step(s, StartCall(t, ctx));
      && t.slot == t.owned == Some(Deferred(t.revision)) && t.revision == s.revision + 1
      && t.published && t.ctx == Some(ctx) && t.starts == s.starts && t.start.None? && !LostSlot(t)
  {
  }

  /** A call through that deferred runtime begins a start, as a `getRuntime` call would. */
  lemma {:induction false} ProxyBegins(s: State, t: TaskId, ctx: Ctx)
    requires Inv(s) && s.stop.None? && s.start.None? && s.ctx.Some? && s.owned == Some(Deferred(s.revision))
    ensures Step(s, ProxyCall(t, s.revision)) == Step(s, GetRuntime(t, ctx))
  {
  }

  /** `start` on an open service that nothing disturbs promotes it: its runtime is registered, if the inner
      promotion succeeds. */
  lemma {:induction false} StartPromotes(s: State, t: TaskId, ctx: Ctx, ok: bool)
    requires Inv(s) && s.stop.None? && s.ctx.Some?
    requires s.start.Some? ==> s.start.value in s.starts && s.starts[s.start.value].phase.Resolved?
    ensures var s1 := Step(s, StartCall(t, ctx));
      && Enabled(s1, PromoteAwaited(t))
      && var s2 := Step(s1, PromoteAwaited(t));
      && Enabled(s2, PromoteFinish(t, ok))
      && var s3 := Step(s2, PromoteFinish(t, ok));
      && s3.published == (s.published || ok) && s3.slot == (if ok then s.owned else s.slot)
      && s3.owned == s.owned && s3.revision == s.revision && t !in s3.promotions
  {
    assert OwnedCurrent(s);
    hide Inv;
  }

  /** A promotion waits for the start that was under way when `start` was called, and comes to nothing if that
      start was rejected. */
  lemma {:induction false} PromotionAwaitsStart(s: State, t: TaskId, ctx: Ctx, s2: State)
    requires Inv(s) && s.stop.None? && s.ctx.Some? && s.start.Some?
    requires t in s2.promotions && s2.promotions[t] == Step(s, StartCall(t, ctx)).promotions[t]
    requires s.start.value in s2.starts
    ensures Enabled(s2, PromoteAwaited(t)) <==> Settled(s2.starts[s.start.value])
    ensures s2.starts[s.start.value].phase.Rejected? ==>
      Step(s2, PromoteAwaited(t)) == s2.(promotions := s2.promotions - {t})
  {
    assert OwnedCurrent(s);
    hide Inv;
  }

  /** The calls that wait on a stop go on after it exactly if the inner stop went through; otherwise each of them
      throws, and is gone. */
  lemma {:induction false} WaitersFollowTheStop(s: State, t: TaskId, ok: bool)
    requires Inv(s) && Enabled(s, StopFinish(ok)) && t in s.waiters && s.waiters[t].stopId == s.stop.value.id
    ensures var s2 := Step(Step(s, StopFinish(ok)), StopClear);
      && !Enabled(s, Wake(t)) && !Enabled(s, WaitRejected(t))
      && (Enabled(s2, Wake(t)) <==> ok) && (Enabled(s2, WaitRejected(t)) <==> !ok)
      && (!ok ==> Step(s2, WaitRejected(t)) == s2.(waiters := s2.waiters - {t}))
  {
    assert StopConsistent(s);
    hide Inv;
  }

  /** A call that came while a stop was under way begins a start when it goes on after it. */
  lemma {:induction false} WaiterBegins(s: State, t: TaskId)
    requires Inv(s) && Enabled(s, Wake(t)) && !s.waiters[t].forStart && s.stop.None? && s.start.None?
    ensures Begun(s, Step(s, Wake(t)), t, s.startCount, Loading, None) && t !in Step(s, Wake(t)).waiters
  {
    assert OwnedCurrent(s) && StopConsistent(s);
    hide Inv;
  }

  /** A whole stop, once the start that it found has settled, leaves a closed and idle service. */
  lemma {:induction false} StopCloses(s: State, ok: bool)
    requires Inv(s) && s.stop.None?
    requires s.start.Some? ==> s.start.value in s.starts && Settled(s.starts[s.start.value])
    ensures var s1 := Step(s, StopCall);
      && Enabled(s1, StopAwaited) && Enabled(Step(s1, StopAwaited), StopFinish(ok))
      && var s3 := Step(Step(s1, StopAwaited), StopFinish(ok));
      && Enabled(s3, StopClear)
      && var end := Step(s3, StopClear);
      && end.stop.None? && end.start.None? && end.service.None? && end.owned.None? && end.ctx.None?
      && !end.published && Withdrawn(end) && end.revision == s.revision + 1
      && (s.slot.Some? && s.slot.value.Foreign? ==> end.slot == s.slot)
  {
    StopWithdraws(s);
    assert OwnedCurrent(s);
    hide Inv;
  }

  /** A retracted runtime leaves the slot, and nothing else does. */
  lemma {:induction false} RetractWithdraws(s: State, p: StartId, n: nat)
    requires Enabled(s, Retract(p, n))
    ensures Step(s, Retract(p, n)).slot ==
      if s.slot == Some(Real(s.starts[p].revision, p, n)) then None else s.slot
  {
  }
}
