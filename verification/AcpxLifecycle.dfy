/**
  The lazy lifecycle of the ACPX runtime service: every stretch of code between two awaits is one
  step, and `start`, `getRuntime`, `stop`, an inner start, promotions and foreign plugins interleave
  freely over one registry slot.
*/
module AcpxLifecycle {
  import opened Options

  type Ctx = nat
  type StartId = nat
  type TaskId = nat

  /** Runtimes by origin: the proxy of a revision, one published by an inner start, or foreign. */
  datatype Runtime =
    | Deferred(revision: nat)
    | Real(revision: nat, start: StartId, serial: nat)
    | Foreign(id: nat)

  predicate Ours(r: Runtime) {
    !r.Foreign?
  }

  datatype Phase = Loading | Running | Resolved(runtime: Runtime) | Rejected(caught: bool)

  /** An inner start promise and the values its closure captured. */
  datatype Start = Start(
    revision: nat, ctx: Ctx, deferred: Runtime, published: Option<Runtime>, phase: Phase)

  datatype StopPhase = AwaitingStart | StoppingService | Finished

  datatype Stop = Stop(id: nat, owned: Option<Runtime>, start: Option<StartId>, phase: StopPhase)

  /** A `start` or `getRuntime` call that waits on the stop with the given id. */
  datatype Waiter = Waiter(stopId: nat, forStart: bool, ctx: Ctx)

  /** A `start` call that promotes an already opened service. */
  datatype Promotion = Promotion(
    revision: nat, previous: Option<Runtime>, awaited: Option<StartId>, promoting: bool)

  datatype State = State(
    ctx: Option<Ctx>,
    published: bool,
    revision: nat,
    owned: Option<Runtime>,
    service: Option<StartId>,
    start: Option<StartId>,
    stop: Option<Stop>,
    slot: Option<Runtime>,
    stopCount: nat,
    failedStops: set<nat>,
    startCount: nat,
    starts: map<StartId, Start>,
    waiters: map<TaskId, Waiter>,
    promotions: map<TaskId, Promotion>,
    callers: map<TaskId, StartId>)

  /** A new service; a foreign plugin may already hold the slot. */
  function Initially(backend: Option<nat>): State {
    State(None, false, 0, None, None, None, None, ForeignSlot(backend), 0, {}, 0, map[], map[], map[], map[])
  }

  function ForeignSlot(backend: Option<nat>): Option<Runtime> {
    if backend.Some? then Some(Foreign(backend.value)) else None
  }

  // ---- The synchronous pieces ---------------------------------------------------------------

  /** `unregisterOwnedRuntime`: clears the slot only if it holds exactly that runtime. */
  function Unregister(slot: Option<Runtime>, runtime: Option<Runtime>): Option<Runtime> {
    if runtime.Some? && slot == runtime then None else slot
  }

  /** `startRealService` up to its await, for a caller that passed the revision check. */
  function StartReal(s: State, task: TaskId, deferred: Runtime): State
    requires s.ctx.Some?
  {
    if s.start.Some? then s.(callers := s.callers[task := s.start.value])
    else
      var p := s.startCount;
      s.(start := Some(p), startCount := p + 1, callers := s.callers[task := p],
         starts := s.starts[p := Start(s.revision, s.ctx.value, deferred, None, Loading)])
  }

  /** The state in which a closed service has opened its next revision. */
  function Opened(s: State, ctx: Ctx): State {
    s.(ctx := Some(ctx), revision := s.revision + 1, owned := Some(Deferred(s.revision + 1)))
  }

  /** `getRuntime` after its wait. */
  function RuntimeBody(s: State, task: TaskId, ctx: Ctx): State {
    var s1 := if s.ctx.Some? then s else Opened(s, ctx);
    if s1.owned.None? then s1 else StartReal(s1, task, s1.owned.value)
  }

  /** `start` after its wait. */
  function StartBody(s: State, task: TaskId, ctx: Ctx): State {
    if s.ctx.Some? && s.owned.Some? then
      s.(promotions := s.promotions[task := Promotion(s.revision, s.slot, s.start, false)])
    else
      var deferred := Some(Deferred(s.revision + 1));
      s.(published := true, revision := s.revision + 1, ctx := Some(ctx), owned := deferred, slot := deferred)
  }

  /** `stop` up to its await. */
  function StopBody(s: State): State {
    s.(revision := s.revision + 1, ctx := None, published := false,
       slot := Unregister(s.slot, s.owned), stopCount := s.stopCount + 1,
       stop := Some(Stop(s.stopCount, s.owned, s.start, AwaitingStart)))
  }

  /** What `stop` clears after the inner stop, which may have rejected. */
  function StopCleanup(s: State, ok: bool): State
    requires s.stop.Some?
  {
    s.(slot := Unregister(s.slot, s.stop.value.owned), owned := None, service := None, start := None,
       stop := Some(s.stop.value.(phase := Finished)),
       failedStops := if ok then s.failedStops else s.failedStops + {s.stop.value.id})
  }

  /** The `assertCurrent` of a promotion. */
  predicate PromotionCurrent(s: State, k: Promotion) {
    s.revision == k.revision && s.ctx.Some? && (s.slot == k.previous || s.slot == s.owned)
  }

  /** Whether the closure of an inner start still belongs to the open service. */
  predicate StillCurrent(s: State, k: Start) {
    s.revision == k.revision && s.ctx == Some(k.ctx)
  }

  predicate Settled(k: Start) {
    k.phase.Resolved? || k.phase.Rejected?
  }

  /** The checks after the inner `start` returned. */
  function FinishPhase(s: State, k: Start, ok: bool): Phase {
    if ok && StillCurrent(s, k) && k.published.Some? && (s.published ==> s.slot == k.published)
    then Resolved(k.published.value) else Rejected(false)
  }

  // ---- Steps --------------------------------------------------------------------------------

  datatype Action =
    | GetRuntime(task: TaskId, ctx: Ctx)
    | StartCall(task: TaskId, ctx: Ctx)
    | Wake(task: TaskId)
    | WaitRejected(task: TaskId)
    | ProxyCall(task: TaskId, revision: nat)
    | Load(start: StartId, ok: bool)
    | Publish(start: StartId, serial: nat)
    | Retract(start: StartId, serial: nat)
    | Finish(start: StartId, ok: bool)
    | Catch(start: StartId)
    | StopCall
    | StopAwaited
    | StopFinish(ok: bool)
    | StopClear
    | PromoteAwaited(task: TaskId)
    | PromoteFinish(task: TaskId, ok: bool)
    | ForeignWrite(backend: Option<nat>)

  lemma StartRealFrame(s: State, task: TaskId, deferred: Runtime)
    requires s.ctx.Some?
    ensures var t := StartReal(s, task, deferred); t.revision == s.revision && t.slot == s.slot
  {
  }

  lemma OpenedFrame(s: State, ctx: Ctx)
    ensures var t := Opened(s, ctx); t.revision > s.revision && t.slot == s.slot && t.ctx.Some? && t.owned.Some?
  {
  }

  predicate StopOver(s: State, id: nat) {
    s.stop.None? || s.stop.value.id != id
  }

  /** A call that waited on a stop goes on if the stop went through, and throws if the inner stop rejected. */
  predicate Enabled(s: State, a: Action) {
    match a
    case Wake(t) => t in s.waiters && StopOver(s, s.waiters[t].stopId) && s.waiters[t].stopId !in s.failedStops
    case WaitRejected(t) => t in s.waiters && StopOver(s, s.waiters[t].stopId) && s.waiters[t].stopId in s.failedStops
    case Load(p, _) => p in s.starts && s.starts[p].phase.Loading?
    case Publish(p, _) => p in s.starts && !s.starts[p].phase.Loading?
    case Retract(p, _) => p in s.starts && !s.starts[p].phase.Loading?
    case Finish(p, _) => p in s.starts && s.starts[p].phase.Running?
    case Catch(p) => p in s.starts && s.starts[p].phase == Rejected(false)
    case StopAwaited =>
      && s.stop.Some? && s.stop.value.phase.AwaitingStart?
      && (s.stop.value.start.Some? ==>
          s.stop.value.start.value in s.starts && Settled(s.starts[s.stop.value.start.value]))
    case StopFinish(_) => s.stop.Some? && s.stop.value.phase.StoppingService?
    case StopClear => s.stop.Some? && s.stop.value.phase.Finished?
    case PromoteAwaited(t) =>
      && t in s.promotions && !s.promotions[t].promoting
      && (s.promotions[t].awaited.Some? ==>
          s.promotions[t].awaited.value in s.starts && Settled(s.starts[s.promotions[t].awaited.value]))
    case PromoteFinish(t, _) => t in s.promotions && s.promotions[t].promoting
    case _ => true
  }

  function Step(s: State, a: Action): State
    requires Enabled(s, a)
  {
    match a
    case GetRuntime(t, ctx) =>
      if s.stop.Some? then s.(waiters := s.waiters[t := Waiter(s.stop.value.id, false, ctx)])
      else RuntimeBody(s, t, ctx)
    case StartCall(t, ctx) =>
      if s.stop.Some? then s.(waiters := s.waiters[t := Waiter(s.stop.value.id, true, ctx)])
      else StartBody(s, t, ctx)
    case Wake(t) =>
      var w := s.waiters[t];
      var s1 := s.(waiters := s.waiters - {t});
      if w.forStart then StartBody(s1, t, w.ctx) else RuntimeBody(s1, t, w.ctx)
    case WaitRejected(t) => s.(waiters := s.waiters - {t})
    case ProxyCall(t, revision) =>
      if s.revision != revision || s.ctx.None? then s else StartReal(s, t, Deferred(revision))
    case Load(p, ok) =>
      var s1 := s.(starts := s.starts[p := s.starts[p].(phase := if ok then Running else Rejected(false))]);
      if ok then s1.(service := Some(p)) else s1
    case Publish(p, serial) =>
      var k := s.starts[p];
      if !StillCurrent(s, k) || (s.published && s.slot != Some(k.deferred)) then s
      else
        var runtime := Some(Real(k.revision, p, serial));
        s.(slot := if s.published then runtime else s.slot, owned := runtime,
           starts := s.starts[p := k.(published := runtime)])
    case Retract(p, serial) =>
      s.(slot := Unregister(s.slot, Some(Real(s.starts[p].revision, p, serial))))
    case Finish(p, ok) =>
      s.(starts := s.starts[p := s.starts[p].(phase := FinishPhase(s, s.starts[p], ok))])
    case Catch(p) =>
      var s1 := s.(starts := s.starts[p := s.starts[p].(phase := Rejected(true))]);
      if s.revision == s.starts[p].revision then s1.(start := None, service := None) else s1
    case StopCall => if s.stop.Some? then s else StopBody(s)
    case StopAwaited => s.(stop := Some(s.stop.value.(phase := StoppingService)))
    case StopFinish(ok) => StopCleanup(s, ok)
    case StopClear => s.(stop := None)
    case PromoteAwaited(t) =>
      var k := s.promotions[t];
      if (k.awaited.Some? && s.starts[k.awaited.value].phase.Rejected?) || !PromotionCurrent(s, k)
      then s.(promotions := s.promotions - {t})
      else s.(promotions := s.promotions[t := k.(promoting := true)])
    case PromoteFinish(t, ok) =>
      var s1 := s.(promotions := s.promotions - {t});
      if ok && PromotionCurrent(s, s.promotions[t]) then s1.(published := true, slot := s1.owned) else s1
    case ForeignWrite(backend) =>
      s.(slot := ForeignSlot(backend))
  }

  /** `stop` is not called anew while a `start` or `getRuntime` call still has to go on after an earlier stop. */
  predicate Disciplined(s: State, a: Action) {
    a.StopCall? && s.stop.None? ==> forall t :: t in s.waiters ==> s.waiters[t].stopId in s.failedStops
  }

  ghost predicate IsRun(s: State, acts: seq<Action>)
    decreases |acts|
  {
    acts == [] || (Enabled(s, acts[0]) && IsRun(Step(s, acts[0]), acts[1..]))
  }

  ghost predicate IsDisciplinedRun(s: State, acts: seq<Action>)
    decreases |acts|
  {
    acts == [] ||
    (Enabled(s, acts[0]) && Disciplined(s, acts[0]) && IsDisciplinedRun(Step(s, acts[0]), acts[1..]))
  }

  ghost function Run(s: State, acts: seq<Action>): State
    requires IsRun(s, acts)
    decreases |acts|
  {
    if acts == [] then s else Run(Step(s, acts[0]), acts[1..])
  }

  lemma {:induction false} DisciplinedIsRun(s: State, acts: seq<Action>)
    requires IsDisciplinedRun(s, acts)
    ensures IsRun(s, acts)
    decreases |acts|
  {
    if acts != [] {
      DisciplinedIsRun(Step(s, acts[0]), acts[1..]);
    }
  }

  /** A run of one step. */
  lemma {:induction false} RunOne(s: State, a: Action)
    requires Enabled(s, a)
    ensures IsRun(s, [a]) && Run(s, [a]) == Step(s, a)
  {
    assert [a][1..] == [];
    assert IsRun(Step(s, a), []);
  }

  /** Runs compose. */
  lemma {:induction false} RunConcat(s: State, xs: seq<Action>, ys: seq<Action>)
    requires IsRun(s, xs) && IsRun(Run(s, xs), ys)
    ensures IsRun(s, xs + ys) && Run(s, xs + ys) == Run(Run(s, xs), ys)
    decreases |xs|
  {
    if xs == [] {
      assert xs + ys == ys;
    } else {
      RunConcat(Step(s, xs[0]), xs[1..], ys);
      assert (xs + ys)[0] == xs[0] && (xs + ys)[1..] == xs[1..] + ys;
    }
  }
}
