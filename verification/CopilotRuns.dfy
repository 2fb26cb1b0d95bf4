/**
  What the binding protocol keeps over every run: the fence around a deferred compaction, the
  agreement of the live map with the store, and the finality of a reset or an aborted compaction.
*/
module CopilotRuns {
  import opened Options
  import opened JsText
  import opened CopilotBindings

  // ---- The fence of a deferred compaction ---------------------------------------------------

  /** A compaction that was admitted and whose settling step has not run. */
  predicate Unsettled(s: State, c: CleanupId, sid: SessionId, sdk: SdkId) {
    c in s.pending && s.pending[c] == Deferred(sid, sdk, false)
  }

  predicate Ends(a: Action, c: CleanupId) {
    (a.SettleA? || a.RejectedA?) && a.cleanup == c
  }

  lemma LookupFrame(s: State, sid: SessionId, io: Io)
    ensures var (s1, found) := Lookup(s, sid, io);
      && s1 == s.(store := s1.store)
      && (s1.store == s.store || (s1.store == s.store - {sid} && found.None?))
      && (found.Some? ==> s1 == s && sid in s.store && found == NormalizeAttemptBinding(s.store[sid]))
  {
  }

  /** A probe or a resume resolution changes nothing, unless a lookup fails. */
  lemma ProbeFrame(s: State, sid: SessionId, io: Io)
    ensures var s1 := HasPending(s, sid, io).0;
      s1 == s.(store := s1.store) && (s1.store == s.store || s1.store == s.store - {sid})
  {
  }

  lemma ResumeFrame(s: State, sid: SessionId, compatKey: string, io: Io, again: Io)
    ensures var (s1, found) := Resume(s, sid, compatKey, io, again);
      && s1 == s.(store := s1.store) && (s1.store == s.store || s1.store == s.store - {sid})
      && (found.Some? ==>
          || (sid in s.live && found == Some(TrackedBinding(s.live[sid])))
          || (sid in s.store && found == NormalizeAttemptBinding(s.store[sid])))
  {
    ProbeFrame(s, sid, io);
    LookupFrame(HasPending(s, sid, io).0, sid, again);
  }

  /** A settling step touches the bindings and the block of its own session only. */
  lemma SettleFrame(s: State, c: CleanupId, outcome: Outcome, io: Io)
    requires c in s.pending
    ensures var sid, s1 := s.pending[c].session, Settle(s, c, outcome, io);
      && s1.pending == s.pending[c := s.pending[c].(settled := true)]
      && s1.resets == s.resets && s1.durable == s.durable
      && (s1.live == s.live || s1.live == s.live - {sid})
      && (s1.store == s.store || s1.store == s.store - {sid})
  {
    LookupFrame(s, s.pending[c].session, io);
  }

  lemma ResetEndFrame(s: State, r: ResetId, io: Io)
    requires r in s.resets
    ensures var sid, s1 := s.resets[r].session, ResetEnd(s, r, io);
      && s1.pending == s.pending && s1.resets == s.resets - {r} && s1.durable == s.durable
      && (s1.live == s.live || s1.live == s.live - {sid})
      && (s1.store == s.store || s1.store == s.store - {sid})
  {
    LookupFrame(s, s.resets[r].session, io);
  }

  /** Admission is exactly ownership: the table gains the entry iff the session's live or stored
      binding names the SDK session. */
  lemma AdmitIffOwned(s: State, c: CleanupId, sid: SessionId, sdk: SdkId, io: Io)
    requires c !in s.pending
    ensures Unsettled(Admit(s, c, sid, sdk, io), c, sid, sdk)
      <==> LiveOwns(s, sid, sdk) || Owns(Lookup(s, sid, io).1, sdk)
  {
  }

  lemma UnsettledStep(s: State, a: Action, c: CleanupId, sid: SessionId, sdk: SdkId)
    requires Enabled(s, a) && Unsettled(s, c, sid, sdk) && !Ends(a, c)
    ensures Unsettled(Step(s, a), c, sid, sdk)
  {
    match a
    case ResumeA(x, compatKey, io, again) => ResumeFrame(s, x, compatKey, io, again);
    case EstablishA(_, _, _) =>
    case AdmitA(_, x, _, io) => LookupFrame(s, x, io);
    case SettleA(d, outcome, io) => SettleFrame(s, d, outcome, io);
    case ForgetA(_) =>
    case RejectedA(_) =>
    case CompleteA(_, _, _, _) =>
    case ResetBeginA(_, x, io) => LookupFrame(s, x, io);
    case ResetEndA(r, io) => ResetEndFrame(s, r, io);
    case CompactProbeA(x, io) => ProbeFrame(s, x, io);
    case StaleA(_, _, _) =>
    case DisposeA =>
  }

  lemma {:induction false} UnsettledRun(s: State, acts: seq<Action>, c: CleanupId, sid: SessionId, sdk: SdkId)
    requires IsRun(s, acts) && Unsettled(s, c, sid, sdk)
    requires forall a :: a in acts ==> !Ends(a, c)
    ensures Unsettled(Run(s, acts), c, sid, sdk)
    decreases |acts|
  {
    if acts != [] {
      UnsettledStep(s, acts[0], c, sid, sdk);
      UnsettledRun(Step(s, acts[0]), acts[1..], c, sid, sdk);
    }
  }

  /** The one hole in the fence: nothing is live, the block was lifted, the lookup of the compaction check
      and its clean-up deletion both fail, and the second lookup still finds the session. */
  predicate FenceFails(s: State, sid: SessionId, sdk: SdkId, compatKey: string, io: Io, again: Io) {
    && sid !in s.live && sid !in s.blocked
    && !io.lookupOk && !io.deleteOk && again.lookupOk
    && sid in s.store
    && var b := NormalizeAttemptBinding(s.store[sid]);
      Owns(b, sdk) && b.value.compatKey == compatKey
  }

  /** In any state, a resume resolution returns an SDK session under compaction exactly in that case. */
  lemma UnsettledBlocksResume(
    s: State, c: CleanupId, sid: SessionId, sdk: SdkId, compatKey: string, io: Io, again: Io)
    requires Unsettled(s, c, sid, sdk)
    ensures Owns(Resume(s, sid, compatKey, io, again).1, sdk) <==> FenceFails(s, sid, sdk, compatKey, io, again)
  {
    assert HasCleanup(s, sid);
    assert CleanupOwns(s, sid, sdk);
    LookupFrame(s, sid, io);
    LookupFrame(HasPending(s, sid, io).0, sid, again);
  }

  /** From the step that admits a deferred compaction until its settling step (or the rejection of
      its cleanup), no resume resolution returns its SDK session, whatever other steps run: the
      reset block may be cleared by an establish, a completed sibling or a reset. */
  lemma CompactionFencesResume(
    s: State, c: CleanupId, sid: SessionId, sdk: SdkId, io: Io, acts: seq<Action>, compatKey: string, io': Io, again: Io)
    requires Enabled(s, AdmitA(c, sid, sdk, io))
    requires LiveOwns(s, sid, sdk) || Owns(Lookup(s, sid, io).1, sdk)
    requires IsRun(Admit(s, c, sid, sdk, io), acts)
    requires forall a :: a in acts ==> !Ends(a, c)
    ensures var t := Run(Admit(s, c, sid, sdk, io), acts);
      Owns(Resume(t, sid, compatKey, io', again).1, sdk) <==> FenceFails(t, sid, sdk, compatKey, io', again)
    ensures io'.lookupOk || io'.deleteOk ==>
      !Owns(Resume(Run(Admit(s, c, sid, sdk, io), acts), sid, compatKey, io', again).1, sdk)
  {
    AdmitIffOwned(s, c, sid, sdk, io);
    UnsettledRun(Admit(s, c, sid, sdk, io), acts, c, sid, sdk);
    UnsettledBlocksResume(Run(Admit(s, c, sid, sdk, io), acts), c, sid, sdk, compatKey, io', again);
  }

  /** A run of three steps, given the states it passes through. */
  lemma RunThree(s: State, a: Action, s1: State, b: Action, s2: State, c: Action, s3: State)
    ensures Enabled(s, a) && s1 == Step(s, a) && Enabled(s1, b) && s2 == Step(s1, b) && Enabled(s2, c) && s3 == Step(s2, c)
      ==> IsRun(s, [a, b, c]) && Run(s, [a, b, c]) == s3
  {
    hide Step, Enabled;
    assert [a, b, c][1..] == [b, c] && [b, c][1..] == [c] && [c][1..] == [];
    assert IsRun(s3, []) && Run(s3, []) == s3;
    if Enabled(s, a) && s1 == Step(s, a) && Enabled(s1, b) && s2 == Step(s1, b) && Enabled(s2, c) && s3 == Step(s2, c) {
      assert IsRun(s2, [c]) && Run(s2, [c]) == s3;
      assert IsRun(s1, [b, c]) && Run(s1, [b, c]) == s3;
    }
  }

  /** A run into that hole: two compactions of a stored session are admitted, one completes and lifts the
      block, and a resume whose first lookup fails returns the session that the other still compacts. */
  lemma FailedLookupOpensTheFence(sid: SessionId)
    ensures var ok, lost := Io(true, true, true), Io(false, false, false);
      var s := State(true, map[], map[sid := Legacy("a", "k")], {}, map[], map[]);
      var acts := [AdmitA(0, sid, "a", ok), AdmitA(1, sid, "a", ok), SettleA(1, Completed, ok)];
      && Initial(s) && IsRun(s, acts) && Unsettled(Run(s, acts), 0, sid, "a")
      && Owns(Resume(Run(s, acts), sid, "k", lost, ok).1, "a")
  {
    var ok, lost := Io(true, true, true), Io(false, false, false);
    var s := State(true, map[], map[sid := Legacy("a", "k")], {}, map[], map[]);
    assert NormalizeAttemptBinding(Legacy("a", "k")) == Some(Binding("a", "k", false));
    var s1 := Admit(s, 0, sid, "a", ok);
    assert s1 == s.(blocked := {sid}, pending := map[0 := Deferred(sid, "a", false)]);
    var s2 := Admit(s1, 1, sid, "a", ok);
    var s3 := Settle(s2, 1, Completed, ok);
    assert s3.live == map[] && s3.store == s.store && s3.blocked == {} && Unsettled(s3, 0, sid, "a");
    RunThree(s, AdmitA(0, sid, "a", ok), s1, AdmitA(1, sid, "a", ok), s2, SettleA(1, Completed, ok), s3);
    UnsettledBlocksResume(s3, 0, sid, "a", "k", lost, ok);
  }

  // ---- Agreement of the live map and the store ----------------------------------------------

  ghost predicate AgreesAt(s: State, sid: SessionId) {
    sid in s.live && sid in s.store ==> s.store[sid] == Written(s.live[sid])
  }

  ghost predicate Agreement(s: State) {
    && (!s.durable ==> s.store == map[])
    && forall sid :: sid in s.live ==> AgreesAt(s, sid)
  }

  /** A failed registration whose clean-up deletion fails as well leaves the old value behind. */
  predicate LosesWrite(a: Action) {
    (a.EstablishA? || a.CompleteA?) && !a.io.registerOk && !a.io.deleteOk
  }

  lemma {:induction false} AgreementStep(s: State, a: Action)
    requires Enabled(s, a) && Agreement(s) && !LosesWrite(a)
    ensures Agreement(Step(s, a))
  {
    hide Resume, HasPending, Settle, ResetEnd, NormalizeAttemptBinding, Establish, Complete, Agreement, AgreesAt;
    var s' := Step(s, a);
    match a
    case ResumeA(sid, compatKey, io, again) => ResumeFrame(s, sid, compatKey, io, again); ShrinkAgrees(s, s');
    case EstablishA(sid, t, io) => EstablishAgrees(s, sid, t, io);
    case AdmitA(_, sid, _, io) => LookupFrame(s, sid, io); ShrinkAgrees(s, s');
    case SettleA(c, outcome, io) => SettleFrame(s, c, outcome, io); ShrinkAgrees(s, s');
    case ForgetA(_) => ShrinkAgrees(s, s');
    case RejectedA(_) => ShrinkAgrees(s, s');
    case CompleteA(sid, sdk, journal, io) => CompleteAgrees(s, sid, sdk, journal, io);
    case ResetBeginA(_, sid, io) => LookupFrame(s, sid, io); ShrinkAgrees(s, s');
    case ResetEndA(r, io) => ResetEndFrame(s, r, io); ShrinkAgrees(s, s');
    case CompactProbeA(sid, io) => ProbeFrame(s, sid, io); ShrinkAgrees(s, s');
    case StaleA(sid, _, _) => ShrinkAgrees(s, s');
    case DisposeA => ShrinkAgrees(s, s');
  }

  lemma EstablishAgrees(s: State, sid: SessionId, t: Tracked, io: Io)
    requires Agreement(s) && (io.registerOk || io.deleteOk)
    ensures Agreement(Establish(s, sid, t, io))
  {
    WriteAgrees(s, Establish(s, sid, t, io), sid);
  }

  lemma CompleteAgrees(s: State, sid: SessionId, sdk: Option<SdkId>, journal: bool, io: Io)
    requires Agreement(s) && (io.registerOk || io.deleteOk)
    ensures Agreement(Complete(s, sid, sdk, journal, io))
  {
    var s' := Complete(s, sid, sdk, journal, io);
    if s' != s {
      WriteAgrees(s, s', sid);
    }
  }

  lemma ShrinkAgrees(s: State, s': State)
    requires Agreement(s) && s'.durable == s.durable
    requires forall x :: x in s'.live ==> x in s.live && s'.live[x] == s.live[x]
    requires forall x :: x in s'.store ==> x in s.store && s'.store[x] == s.store[x]
    ensures Agreement(s')
  {
    forall x | x in s'.live ensures AgreesAt(s', x) {
      assert AgreesAt(s, x);
    }
  }

  lemma WriteAgrees(s: State, s': State, sid: SessionId)
    requires Agreement(s) && s'.durable == s.durable
    requires s.durable || s'.store == s.store
    requires forall x :: x in s'.live && x != sid ==> x in s.live && s'.live[x] == s.live[x]
    requires forall x :: x in s'.store && x != sid ==> x in s.store && s'.store[x] == s.store[x]
    requires AgreesAt(s', sid)
    ensures Agreement(s')
  {
    forall x | x in s'.live ensures AgreesAt(s', x) {
      assert x != sid ==> AgreesAt(s, x);
    }
  }

  lemma {:induction false} AgreementRun(s: State, acts: seq<Action>)
    requires IsRun(s, acts) && Agreement(s)
    requires forall a :: a in acts ==> !LosesWrite(a)
    ensures Agreement(Run(s, acts))
    decreases |acts|
  {
    if acts != [] {
      AgreementStep(s, acts[0]);
      AgreementRun(Step(s, acts[0]), acts[1..]);
    }
  }

  /** In every state a harness reaches, a session held by both the live map and the store is named
      alike by both: SDK session, compat key, compact key, auth and journal version. Registrations,
      lookups and deletions may fail; only both halves of one write may not. */
  lemma LiveAndStoreAgree(s: State, acts: seq<Action>, sid: SessionId)
    requires Initial(s) && IsRun(s, acts)
    requires forall a :: a in acts ==> !LosesWrite(a)
    requires sid in Run(s, acts).live && sid in Run(s, acts).store
    ensures var t, v := Run(s, acts).live[sid], Run(s, acts).store[sid];
      && v.Current?
      && v.sdkId == t.sdkId && v.compatKey == t.compatKey && v.compactKey == t.compactKey
      && SessionAuthMatches(v.auth, t.auth)
      && (v.journalVersion == Some(1) <==> t.journal)
  {
    AgreementRun(s, acts);
    assert AgreesAt(Run(s, acts), sid);
  }

  /** The excluded outcome is exactly the one that can break the agreement. */
  lemma EstablishAgreesIff(s: State, sid: SessionId, t: Tracked, io: Io)
    requires Agreement(s)
    ensures Agreement(Establish(s, sid, t, io)) <==>
      || io.registerOk || io.deleteOk
      || sid !in s.store || s.store[sid] == Written(t.(journal := false))
  {
    var s' := Establish(s, sid, t, io);
    if AgreesAt(s', sid) {
      WriteAgrees(s, s', sid);
    }
  }

  lemma CompleteAgreesIff(s: State, sid: SessionId, sdk: SdkId, journal: bool, io: Io)
    requires Agreement(s) && LiveOwns(s, sid, sdk) && sdk != ""
    ensures Agreement(Complete(s, sid, Some(sdk), journal, io)) <==>
      || io.registerOk || io.deleteOk
      || sid !in s.store || s.store[sid] == Written(s.live[sid].(journal := journal))
  {
    var s' := Complete(s, sid, Some(sdk), journal, io);
    if AgreesAt(s', sid) {
      WriteAgrees(s, s', sid);
    }
  }

  /** A reachable disagreement: a first session is bound, then the write of its replacement fails
      and so does the deletion meant to clean up after it. */
  lemma LostWriteDisagrees(sid: SessionId, auth: Auth)
    requires SessionAuthFields(auth) == auth
    ensures var ok, lost := Io(true, true, true), Io(true, false, false);
      var first, second := Tracked("a", "k", "c", auth, false), Tracked("b", "k", "c", auth, false);
      var s := State(true, map[], map[], {}, map[], map[]);
      var acts := [EstablishA(sid, first, ok), EstablishA(sid, second, lost)];
      && Initial(s) && IsRun(s, acts)
      && LiveOwns(Run(s, acts), sid, "b")
      && sid in Run(s, acts).store && Run(s, acts).store[sid] == Written(first)
  {
    var ok, lost := Io(true, true, true), Io(true, false, false);
    var first, second := Tracked("a", "k", "c", auth, false), Tracked("b", "k", "c", auth, false);
    var s := State(true, map[], map[], {}, map[], map[]);
    var acts := [EstablishA(sid, first, ok), EstablishA(sid, second, lost)];
    var s1 := Step(s, acts[0]);
    assert acts[1..] == [EstablishA(sid, second, lost)];
    assert acts[1..][1..] == [];
    assert IsRun(Step(s1, acts[1]), []);
    assert IsRun(s1, acts[1..]);
    assert Run(s1, acts[1..]) == Step(s1, acts[1]);
  }

  // ---- Finality of a reset and of an aborted compaction -------------------------------------

  predicate StoreNames(s: State, sid: SessionId, sdk: SdkId) {
    sid in s.store && Owns(NormalizeAttemptBinding(s.store[sid]), sdk)
  }

  /** Some binding of the session names the SDK session. */
  predicate Names(s: State, sid: SessionId, sdk: SdkId) {
    LiveOwns(s, sid, sdk) || StoreNames(s, sid, sdk)
  }

  predicate SameId(written: SdkId, sdk: SdkId) {
    written == sdk || Trim(written) == sdk
  }

  /** An attempt writes a binding of the session that names the SDK session. */
  predicate Writes(a: Action, sid: SessionId, sdk: SdkId) {
    || (a.EstablishA? && a.session == sid && SameId(a.binding.sdkId, sdk))
    || (a.CompleteA? && a.session == sid && a.result.Some? && SameId(a.result.value, sdk))
  }

  predicate NeverWrites(acts: seq<Action>, sid: SessionId, sdk: SdkId) {
    forall a :: a in acts ==> !Writes(a, sid, sdk)
  }

  lemma WrittenNames(t: Tracked, sdk: SdkId)
    ensures Owns(NormalizeAttemptBinding(Written(t)), sdk) ==> Trim(t.sdkId) == sdk
  {
  }

  /** Every binding a step leaves behind was there before the step or was written by it. */
  lemma {:induction false} StepSources(s: State, a: Action, sid: SessionId, sdk: SdkId)
    requires Enabled(s, a) && !Writes(a, sid, sdk)
    ensures LiveOwns(Step(s, a), sid, sdk) ==> LiveOwns(s, sid, sdk)
    ensures StoreNames(Step(s, a), sid, sdk) ==> StoreNames(s, sid, sdk)
  {
    var s' := Step(s, a);
    match a
    case ResumeA(x, compatKey, io, again) => ResumeFrame(s, x, compatKey, io, again); ShrinkSources(s, s', sid, sdk);
    case EstablishA(x, t, io) => EstablishSources(s, x, t, io, sid, sdk);
    case AdmitA(_, x, _, io) => LookupFrame(s, x, io); ShrinkSources(s, s', sid, sdk);
    case SettleA(c, outcome, io) => SettleFrame(s, c, outcome, io); ShrinkSources(s, s', sid, sdk);
    case ForgetA(_) => ShrinkSources(s, s', sid, sdk);
    case RejectedA(_) => ShrinkSources(s, s', sid, sdk);
    case CompleteA(x, result, journal, io) => CompleteSources(s, x, result, journal, io, sid, sdk);
    case ResetBeginA(_, x, io) => LookupFrame(s, x, io); ShrinkSources(s, s', sid, sdk);
    case ResetEndA(r, io) => ResetEndFrame(s, r, io); ShrinkSources(s, s', sid, sdk);
    case CompactProbeA(x, io) => ProbeFrame(s, x, io); ShrinkSources(s, s', sid, sdk);
    case StaleA(_, _, _) => ShrinkSources(s, s', sid, sdk);
    case DisposeA => ShrinkSources(s, s', sid, sdk);
  }

  lemma ShrinkSources(s: State, s': State, sid: SessionId, sdk: SdkId)
    requires sid in s'.live ==> sid in s.live && s'.live[sid] == s.live[sid]
    requires sid in s'.store ==> sid in s.store && s'.store[sid] == s.store[sid]
    ensures LiveOwns(s', sid, sdk) ==> LiveOwns(s, sid, sdk)
    ensures StoreNames(s', sid, sdk) ==> StoreNames(s, sid, sdk)
  {
  }

  lemma EstablishSources(s: State, x: SessionId, t: Tracked, io: Io, sid: SessionId, sdk: SdkId)
    requires x != sid || !SameId(t.sdkId, sdk)
    ensures LiveOwns(Establish(s, x, t, io), sid, sdk) ==> LiveOwns(s, sid, sdk)
    ensures StoreNames(Establish(s, x, t, io), sid, sdk) ==> StoreNames(s, sid, sdk)
  {
    WrittenNames(t.(auth := SessionAuthFields(t.auth), journal := false), sdk);
  }

  lemma CompleteSources(
    s: State, x: SessionId, result: Option<SdkId>, journal: bool, io: Io, sid: SessionId, sdk: SdkId)
    requires x != sid || result.None? || !SameId(result.value, sdk)
    ensures LiveOwns(Complete(s, x, result, journal, io), sid, sdk) ==> LiveOwns(s, sid, sdk)
    ensures StoreNames(Complete(s, x, result, journal, io), sid, sdk) ==> StoreNames(s, sid, sdk)
  {
    if x in s.live {
      WrittenNames(s.live[x].(journal := journal), sdk);
    }
  }

  lemma {:induction false} RunSources(s: State, acts: seq<Action>, sid: SessionId, sdk: SdkId)
    requires IsRun(s, acts) && NeverWrites(acts, sid, sdk)
    ensures LiveOwns(Run(s, acts), sid, sdk) ==> LiveOwns(s, sid, sdk)
    ensures StoreNames(Run(s, acts), sid, sdk) ==> StoreNames(s, sid, sdk)
    decreases |acts|
  {
    if acts != [] {
      StepSources(s, acts[0], sid, sdk);
      RunSources(Step(s, acts[0]), acts[1..], sid, sdk);
    }
  }

  lemma ResumeNames(s: State, sid: SessionId, compatKey: string, io: Io, again: Io)
    ensures var found := Resume(s, sid, compatKey, io, again).1;
      found.Some? ==> Names(s, sid, found.value.sdkId) && found.value.compatKey == compatKey
  {
    ResumeFrame(s, sid, compatKey, io, again);
  }

  /** An SDK session that nothing names is never resumed again, until an attempt writes it. */
  lemma UnnamedStaysUnresumed(
    s: State, later: seq<Action>, sid: SessionId, sdk: SdkId, compatKey: string, io: Io, again: Io)
    requires !Names(s, sid, sdk) && IsRun(s, later) && NeverWrites(later, sid, sdk)
    ensures var found := Resume(Run(s, later), sid, compatKey, io, again).1;
      found.Some? ==> found.value.sdkId != sdk
  {
    RunSources(s, later, sid, sdk);
    ResumeNames(Run(s, later), sid, compatKey, io, again);
  }

  // ---- When a session is never resumed again ---------------------------------------------------

  /** No later run in which no attempt writes the SDK session resumes it. */
  ghost predicate NeverResumed(s: State, sid: SessionId, sdk: SdkId) {
    forall later, compatKey, io, again :: IsRun(s, later) && NeverWrites(later, sid, sdk) ==>
      !Owns(Resume(Run(s, later), sid, compatKey, io, again).1, sdk)
  }

  lemma {:induction false} RunConcat(s: State, xs: seq<Action>, ys: seq<Action>)
    requires IsRun(s, xs) && IsRun(Run(s, xs), ys)
    ensures IsRun(s, xs + ys) && Run(s, xs + ys) == Run(Run(s, xs), ys)
    decreases |xs|
  {
    hide Step, Enabled;
    if xs == [] {
      assert xs + ys == ys;
    } else {
      RunConcat(Step(s, xs[0]), xs[1..], ys);
      assert (xs + ys)[0] == xs[0] && (xs + ys)[1..] == xs[1..] + ys;
    }
  }

  lemma {:induction false} FreshAbove(ids: set<nat>) returns (q: nat)
    ensures forall x :: x in ids ==> x < q
  {
    if ids == {} {
      q := 0;
    } else {
      var x :| x in ids;
      var others := ids - {x};
      q := FreshAbove(others);
      q := if x < q then q else x + 1;
      assert ids == others + {x};
    }
  }

  /** Every cleanup can leave the table without writing a binding. */
  lemma {:induction false} PendingCanEmpty(s: State, sid: SessionId, sdk: SdkId) returns (acts: seq<Action>)
    ensures IsRun(s, acts) && NeverWrites(acts, sid, sdk) && Run(s, acts) == s.(pending := map[])
    decreases |s.pending|
  {
    if s.pending == map[] {
      acts := [];
    } else {
      var c :| c in s.pending;
      var a := if s.pending[c].settled then ForgetA(c) else RejectedA(c);
      var s1 := s.(pending := s.pending - {c});
      assert Enabled(s, a) && Step(s, a) == s1;
      assert s.pending == s1.pending[c := s.pending[c]];
      var others := PendingCanEmpty(s1, sid, sdk);
      acts := [a] + others;
      assert acts[1..] == others;
    }
  }

  /** A reset whose store operations all fail lifts the block and drops the live binding, but not the store's. */
  lemma LostResetUncovers(s: State, q: ResetId, sid: SessionId)
    requires q !in s.resets
    ensures var lost := Io(false, false, false);
      var acts := [ResetBeginA(q, sid, lost), ResetEndA(q, lost)];
      && IsRun(s, acts)
      && Run(s, acts) == s.(live := s.live - {sid}, blocked := s.blocked - {sid}, resets := s.resets - {q})
  {
    var lost := Io(false, false, false);
    LostBegin(s, q, sid);
    var s1 := ResetBegin(s, q, sid, lost);
    LostEnd(s1, q);
    var s2 := ResetEnd(s1, q, lost);
    hide ResetBegin, ResetEnd;
    var acts := [ResetBeginA(q, sid, lost), ResetEndA(q, lost)];
    assert acts[1..] == [ResetEndA(q, lost)] && acts[1..][1..] == [];
    assert IsRun(s2, []) && Run(s2, []) == s2;
    assert IsRun(s1, acts[1..]) && Run(s1, acts[1..]) == s2;
    assert s2.live == s.live - {sid} && s2.blocked == s.blocked - {sid} && s2.resets == s.resets - {q};
  }

  lemma {:induction false} LostBegin(s: State, q: ResetId, sid: SessionId)
    ensures ResetBegin(s, q, sid, Io(false, false, false)) ==
      s.(blocked := s.blocked + {sid}, resets := s.resets[q := Capture(sid, Live(s, sid), None)])
  {
    hide NormalizeAttemptBinding;
  }

  lemma {:induction false} LostEnd(s: State, q: ResetId)
    requires q in s.resets && s.resets[q].stored.None? && s.resets[q].tracked == Live(s, s.resets[q].session)
    ensures var sid := s.resets[q].session;
      ResetEnd(s, q, Io(false, false, false)) ==
        s.(live := s.live - {sid}, blocked := s.blocked - {sid}, resets := s.resets - {q})
  {
    hide NormalizeAttemptBinding;
    var sid := s.resets[q].session;
    assert sid !in s.live ==> s.live - {sid} == s.live;
  }

  /** What the store still names can be resumed by some later run that writes nothing. */
  lemma {:induction false} StoredCanBeResumed(s: State, sid: SessionId, sdk: SdkId)
    requires StoreNames(s, sid, sdk)
    ensures !NeverResumed(s, sid, sdk)
  {
    hide Step, Enabled, NormalizeAttemptBinding;
    var clear := PendingCanEmpty(s, sid, sdk);
    var s1 := Run(s, clear);
    var q := FreshAbove(s1.resets.Keys);
    var lost, ok := Io(false, false, false), Io(true, true, true);
    var reset := [ResetBeginA(q, sid, lost), ResetEndA(q, lost)];
    LostResetUncovers(s1, q, sid);
    var s2 := Run(s1, reset);
    RunConcat(s, clear, reset);
    var compatKey := NormalizeAttemptBinding(s.store[sid]).value.compatKey;
    assert NeverWrites(clear + reset, sid, sdk);
    assert !HasCleanup(s2, sid);
    assert Owns(Resume(s2, sid, compatKey, ok, ok).1, sdk);
    assert Owns(Resume(Run(s, clear + reset), sid, compatKey, ok, ok).1, sdk);
  }

  lemma UnnamedIsNeverResumed(s: State, sid: SessionId, sdk: SdkId)
    requires !Names(s, sid, sdk)
    ensures NeverResumed(s, sid, sdk)
  {
    forall later, compatKey, io, again | IsRun(s, later) && NeverWrites(later, sid, sdk)
      ensures !Owns(Resume(Run(s, later), sid, compatKey, io, again).1, sdk)
    {
      UnnamedStaysUnresumed(s, later, sid, sdk, compatKey, io, again);
    }
  }

  /** After an aborted or expired compaction its SDK session is bound only where the store named it and the
      deletion failed. */
  lemma AbortedSettleNamesIff(s: State, c: CleanupId, outcome: Outcome, io: Io)
    requires c in s.pending && !outcome.Completed?
    ensures var Deferred(sid, sdk, _) := s.pending[c];
      && (Names(Settle(s, c, outcome, io), sid, sdk) <==> !io.deleteOk && StoreNames(s, sid, sdk))
      && !LiveOwns(Settle(s, c, outcome, io), sid, sdk)
  {
    LookupFrame(s, s.pending[c].session, io);
  }

  /** After a compaction settles as aborted or past its deadline, its SDK session is never resumed until some
      attempt writes its binding again, exactly when the deletion succeeds or the store did not name it. */
  lemma {:induction false} AbortedCompactionIsFinal(s: State, c: CleanupId, outcome: Outcome, io: Io)
    requires Enabled(s, SettleA(c, outcome, io)) && !outcome.Completed?
    ensures var Deferred(sid, sdk, _) := s.pending[c];
      NeverResumed(Settle(s, c, outcome, io), sid, sdk) <==> io.deleteOk || !StoreNames(s, sid, sdk)
  {
    hide Settle, StoreNames, LiveOwns, NeverResumed;
    var Deferred(sid, sdk, _) := s.pending[c];
    var t := Settle(s, c, outcome, io);
    AbortedSettleNamesIff(s, c, outcome, io);
    if Names(t, sid, sdk) {
      StoredCanBeResumed(t, sid, sdk);
    } else {
      UnnamedIsNeverResumed(t, sid, sdk);
    }
  }

  /** The SDK sessions a reset captured. */
  predicate Captures(k: Capture, sdk: SdkId) {
    (k.tracked.Some? && k.tracked.value.sdkId == sdk) || Owns(k.stored, sdk)
  }

  predicate Handles(a: Action, r: ResetId) {
    (a.ResetBeginA? || a.ResetEndA?) && a.reset == r
  }

  lemma {:induction false} CaptureKept(s: State, acts: seq<Action>, r: ResetId)
    requires IsRun(s, acts) && r in s.resets
    requires forall a :: a in acts ==> !Handles(a, r)
    ensures r in Run(s, acts).resets && Run(s, acts).resets[r] == s.resets[r]
    decreases |acts|
  {
    if acts != [] {
      CaptureKeptStep(s, acts[0], r);
      CaptureKept(Step(s, acts[0]), acts[1..], r);
    }
  }

  lemma {:induction false} CaptureKeptStep(s: State, a: Action, r: ResetId)
    requires Enabled(s, a) && r in s.resets && !Handles(a, r)
    ensures r in Step(s, a).resets && Step(s, a).resets[r] == s.resets[r]
  {
    match a
    case ResumeA(x, compatKey, io, again) => ResumeFrame(s, x, compatKey, io, again);
    case SettleA(c, outcome, io) => SettleFrame(s, c, outcome, io);
    case ResetEndA(q, io) => ResetEndFrame(s, q, io);
    case CompactProbeA(x, io) => ProbeFrame(s, x, io);
    case _ =>
  }

  /** The final step, run in state `t`, takes a captured SDK session out of the store, or never met it there:
      its deletion succeeds and runs, because the lookup fails or because the store still names what the
      first step read from it. */
  predicate Releases(t: State, r: ResetId, sdk: SdkId, io: Io)
    requires r in t.resets
  {
    || !StoreNames(t, t.resets[r].session, sdk)
    || (io.deleteOk && (!io.lookupOk || Owns(t.resets[r].stored, sdk)))
  }

  /** Which SDK sessions are bound after the final step. */
  lemma ResetEndNamesIff(t: State, r: ResetId, sdk: SdkId, io: Io)
    requires r in t.resets
    ensures var k, t' := t.resets[r], ResetEnd(t, r, io);
      && (StoreNames(t', k.session, sdk) <==> !Releases(t, r, sdk, io))
      && (LiveOwns(t', k.session, sdk) <==>
           LiveOwns(t, k.session, sdk) && !(k.tracked.Some? && k.tracked.value.sdkId == sdk))
  {
    hide NormalizeAttemptBinding;
    LookupFrame(t, t.resets[r].session, io);
  }

  /** What the first step captured and what may have changed until the final one. */
  lemma {:induction false} UntilFinalStep(
    s: State, r: ResetId, sid: SessionId, sdk: SdkId, io: Io, during: seq<Action>)
    requires Enabled(s, ResetBeginA(r, sid, io)) && IsRun(ResetBegin(s, r, sid, io), during)
    requires forall a :: a in during ==> !Handles(a, r)
    requires NeverWrites(during, sid, sdk)
    ensures var t := Run(ResetBegin(s, r, sid, io), during);
      && r in t.resets && t.resets[r].session == sid
      && (LiveOwns(t, sid, sdk) ==> t.resets[r].tracked.Some? && t.resets[r].tracked.value.sdkId == sdk)
      && (io.lookupOk || io.deleteOk ==> StoreNames(t, sid, sdk) ==> Owns(t.resets[r].stored, sdk))
  {
    hide NormalizeAttemptBinding;
    var s1 := ResetBegin(s, r, sid, io);
    CaptureKept(s1, during, r);
    RunSources(s1, during, sid, sdk);
    LookupFrame(s, sid, io);
  }

  /** The final step of a reset leaves a binding that names an SDK session which no attempt wrote since the
      capture exactly when it does not release it; where the first lookup or its clean-up deletion went
      through, exactly when the store still names it and the final deletion fails. */
  lemma {:induction false} ResetEndUnnames(
    s: State, r: ResetId, sid: SessionId, sdk: SdkId, io: Io, during: seq<Action>, io': Io)
    requires Enabled(s, ResetBeginA(r, sid, io)) && IsRun(ResetBegin(s, r, sid, io), during)
    requires forall a :: a in during ==> !Handles(a, r)
    requires NeverWrites(during, sid, sdk)
    ensures r in Run(ResetBegin(s, r, sid, io), during).resets
    ensures var t := Run(ResetBegin(s, r, sid, io), during);
      && (Names(ResetEnd(t, r, io'), sid, sdk) <==> !Releases(t, r, sdk, io'))
      && !LiveOwns(ResetEnd(t, r, io'), sid, sdk)
      && (io.lookupOk || io.deleteOk ==>
           (Names(ResetEnd(t, r, io'), sid, sdk) <==> StoreNames(t, sid, sdk) && !io'.deleteOk))
  {
    hide ResetBegin, ResetEnd, StoreNames, LiveOwns;
    UntilFinalStep(s, r, sid, sdk, io, during);
    ResetEndNamesIff(Run(ResetBegin(s, r, sid, io), during), r, sdk, io');
  }

  /** An SDK session that no attempt writes after the capture is never resumed after the reset's final step,
      in any later run, exactly when the final step releases it. */
  lemma {:induction false} ResetIsFinal(
    s: State, r: ResetId, sid: SessionId, sdk: SdkId, io: Io, during: seq<Action>, io': Io)
    requires Enabled(s, ResetBeginA(r, sid, io)) && IsRun(ResetBegin(s, r, sid, io), during)
    requires forall a :: a in during ==> !Handles(a, r)
    requires NeverWrites(during, sid, sdk)
    ensures r in Run(ResetBegin(s, r, sid, io), during).resets
    ensures var t := Run(ResetBegin(s, r, sid, io), during);
      && (NeverResumed(ResetEnd(t, r, io'), sid, sdk) <==> Releases(t, r, sdk, io'))
      && (io.lookupOk || io.deleteOk ==>
           (NeverResumed(ResetEnd(t, r, io'), sid, sdk) <==> io'.deleteOk || !StoreNames(t, sid, sdk)))
  {
    hide ResetBegin, ResetEnd, StoreNames, LiveOwns, NeverResumed, Releases;
    ResetEndUnnames(s, r, sid, sdk, io, during, io');
    var end := ResetEnd(Run(ResetBegin(s, r, sid, io), during), r, io');
    if Names(end, sid, sdk) {
      StoredCanBeResumed(end, sid, sdk);
    } else {
      UnnamedIsNeverResumed(end, sid, sdk);
    }
  }

  /** The final step touches the session it captured only. It removes its live binding exactly when that still
      has the captured SDK id, and its stored one exactly when the deletion succeeds and runs: because the
      lookup fails, whatever is stored, or because the store still names the captured id. */
  lemma {:induction false} ResetEndRemovesIff(s: State, r: ResetId, io: Io, x: SessionId)
    requires r in s.resets
    ensures var k, s' := s.resets[r], ResetEnd(s, r, io);
      && s'.live.Keys <= s.live.Keys && s'.store.Keys <= s.store.Keys
      && (x in s'.live ==> s'.live[x] == s.live[x]) && (x in s'.store ==> s'.store[x] == s.store[x])
      && (x in s.live ==> (x !in s'.live <==>
            x == k.session && k.tracked.Some? && s.live[x].sdkId == k.tracked.value.sdkId))
      && (x in s.store ==> (x !in s'.store <==>
            x == k.session && io.deleteOk
            && (!io.lookupOk || (k.stored.Some? && StoreNames(s, x, k.stored.value.sdkId)))))
  {
    LookupFrame(s, s.resets[r].session, io);
  }

  lemma EstablishedState(s: State, sid: SessionId, t: Tracked, io: Io)
    requires s.durable && io.registerOk && SessionAuthFields(t.auth) == t.auth && !t.journal
    ensures Establish(s, sid, t, io) ==
      s.(live := s.live[sid := t], store := s.store[sid := Written(t)], blocked := s.blocked - {sid})
  {
  }

  lemma BegunState(s: State, r: ResetId, sid: SessionId, t: Tracked, io: Io)
    requires Restorable(t) && sid in s.live && s.live[sid] == t && sid in s.store && s.store[sid] == Written(t)
    requires io.lookupOk
    ensures ResetBegin(s, r, sid, io) ==
      s.(blocked := s.blocked + {sid}, resets := s.resets[r := Capture(sid, Some(t), Some(TrackedBinding(t)))])
  {
    WrittenReadsBackIff(t);
  }

  /** A binding as an attempt establishes it. */
  predicate Established(t: Tracked) {
    Restorable(t) && SessionAuthFields(t.auth) == t.auth && !t.journal
  }

  /** A session is bound, a reset begins, and a replacement is bound before its final step. */
  lemma {:induction false} ReplacedDuringReset(s: State, r: ResetId, sid: SessionId, first: Tracked, second: Tracked)
    requires s.durable && r !in s.resets && Established(first) && Established(second)
    ensures var ok := Io(true, true, true);
      var acts := [EstablishA(sid, first, ok), ResetBeginA(r, sid, ok), EstablishA(sid, second, ok)];
      && IsRun(s, acts)
      && var t := Run(s, acts);
      && sid in t.live && t.live[sid] == second && sid in t.store && t.store[sid] == Written(second)
      && r in t.resets && t.resets[r] == Capture(sid, Some(first), Some(TrackedBinding(first)))
  {
    var ok := Io(true, true, true);
    hide Establish, ResetBegin, Written, NormalizeAttemptBinding, Restorable;
    EstablishedState(s, sid, first, ok);
    var s1 := Establish(s, sid, first, ok);
    BegunState(s1, r, sid, first, ok);
    var s2 := ResetBegin(s1, r, sid, ok);
    EstablishedState(s2, sid, second, ok);
    var s3 := Establish(s2, sid, second, ok);
    RunThree(s, EstablishA(sid, first, ok), s1, ResetBeginA(r, sid, ok), s2, EstablishA(sid, second, ok), s3);
  }

  /** A replacement with the same SDK id is not told apart from the session that the reset captured: bound
      between the reset's two steps, it is gone from the live map and from the store after them. */
  lemma ResetDropsSameIdReplacement(s: State, r: ResetId, sid: SessionId, first: Tracked, second: Tracked)
    requires s.durable && r !in s.resets
    requires Established(first) && Established(second) && first.sdkId == second.sdkId
    ensures var ok := Io(true, true, true);
      var acts := [EstablishA(sid, first, ok), ResetBeginA(r, sid, ok), EstablishA(sid, second, ok)];
      && IsRun(s, acts)
      && var t := Run(s, acts);
      && sid in t.live && t.live[sid] == second && sid in t.store && t.store[sid] == Written(second)
      && r in t.resets && sid !in ResetEnd(t, r, ok).live && sid !in ResetEnd(t, r, ok).store
  {
    var ok := Io(true, true, true);
    hide ResetEnd;
    ReplacedDuringReset(s, r, sid, first, second);
    var s3 := Run(s, [EstablishA(sid, first, ok), ResetBeginA(r, sid, ok), EstablishA(sid, second, ok)]);
    ResetEndRemovesIff(s3, r, ok, sid);
    WrittenReadsBackIff(second);
  }

  /** When the lookup of the final step fails, its clean-up deletes a replacement with another SDK id too. */
  lemma {:induction false} FailedLookupDropsReplacement(
    s: State, r: ResetId, sid: SessionId, first: Tracked, second: Tracked)
    requires s.durable && r !in s.resets
    requires Established(first) && Established(second) && first.sdkId != second.sdkId
    ensures var ok, lost := Io(true, true, true), Io(false, true, true);
      var acts := [EstablishA(sid, first, ok), ResetBeginA(r, sid, ok), EstablishA(sid, second, ok)];
      && IsRun(s, acts)
      && var t := Run(s, acts);
      && sid in t.store && t.store[sid] == Written(second) && r in t.resets
      && sid !in ResetEnd(t, r, lost).store
      && sid in ResetEnd(t, r, lost).live && ResetEnd(t, r, lost).live[sid] == second
  {
    var ok, lost := Io(true, true, true), Io(false, true, true);
    hide ResetEnd;
    ReplacedDuringReset(s, r, sid, first, second);
    var t := Run(s, [EstablishA(sid, first, ok), ResetBeginA(r, sid, ok), EstablishA(sid, second, ok)]);
    ResetEndRemovesIff(t, r, lost, sid);
  }

  /** When the lookup and the deletion of the final step both fail, the captured session is resumed at once. */
  lemma {:induction false} FailedResetResumes(s: State, r: ResetId, sid: SessionId, t: Tracked)
    requires s.durable && r !in s.resets && !HasCleanup(s, sid) && Established(t)
    ensures var ok, lost := Io(true, true, true), Io(false, true, false);
      var s2 := ResetBegin(Establish(s, sid, t, ok), r, sid, ok);
      && r in s2.resets && Captures(s2.resets[r], t.sdkId)
      && Owns(Resume(ResetEnd(s2, r, lost), sid, t.compatKey, ok, ok).1, t.sdkId)
  {
    var ok, lost := Io(true, true, true), Io(false, true, false);
    hide Establish, ResetBegin, Written, NormalizeAttemptBinding, Restorable;
    EstablishedState(s, sid, t, ok);
    var s1 := Establish(s, sid, t, ok);
    BegunState(s1, r, sid, t, ok);
    var s2 := ResetBegin(s1, r, sid, ok);
    WrittenReadsBackIff(t);
    var s3 := ResetEnd(s2, r, lost);
    assert sid !in s3.live && sid !in s3.blocked && s3.store == s2.store && s3.pending == s.pending;
    assert !HasCleanup(s3, sid);
  }

  /** Such bindings exist: the same SDK session under another compat key. */
  lemma SameIdBindings()
    ensures var auth := Auth(UseLoggedInUser, None, None);
      Established(Tracked("a", "k", "c", auth, false)) && Established(Tracked("a", "l", "c", auth, false))
  {
    TrimmedIsFixed("a");
    TrimmedIsFixed("k");
    TrimmedIsFixed("l");
    TrimmedIsFixed("c");
  }

  /** When the final step cannot delete the binding it still owns, the session stays blocked, so
      nothing is resumed until the block is lifted. */
  lemma FailedResetStaysBlocked(s: State, r: ResetId, compatKey: string, io: Io, io': Io, again: Io)
    requires r in s.resets && io.lookupOk && !io.deleteOk
    requires s.resets[r].session in s.blocked
    requires s.resets[r].stored.Some?
    requires StoreNames(s, s.resets[r].session, s.resets[r].stored.value.sdkId)
    ensures Resume(ResetEnd(s, r, io), s.resets[r].session, compatKey, io', again).1.None?
  {
    var s' := ResetEnd(s, r, io);
    ProbeFrame(s', s.resets[r].session, io');
  }

  // ---- Bindings that survive a restart ------------------------------------------------------

  predicate Restorable(t: Tracked) {
    && Trim(t.sdkId) == t.sdkId && t.sdkId != "" && !Blank(t.compatKey) && !Blank(t.compactKey)
    && (t.auth.mode.UseLoggedInUser? || (Filled(t.auth.profileId) && Filled(t.auth.profileVersion)))
  }

  /** Reading back what was written beside a live binding gives that binding, exactly when its
      fields are filled and its SDK id carries no surrounding white space. */
  lemma WrittenReadsBackIff(t: Tracked)
    ensures NormalizeAttemptBinding(Written(t)) == Some(TrackedBinding(t)) <==> Restorable(t)
  {
    TrimIdempotent(t.sdkId);
  }

  /** Normalising keeps what it accepts: a second pass changes nothing. */
  lemma NormalizeIdempotent(v: Stored)
    requires NormalizeBinding(v).Some?
    ensures NormalizeBinding(NormalizeBinding(v).value) == NormalizeBinding(v)
  {
    TrimIdempotent(v.sdkId);
  }

  /** A new harness over the same store resumes the session an earlier one established. */
  lemma RestartResumes(s: State, sid: SessionId, t: Tracked, io: Io, io': Io, again: Io)
    requires s.durable && io.registerOk && again.lookupOk
    requires Restorable(t) && SessionAuthFields(t.auth) == t.auth
    ensures var restarted := Establish(s, sid, t, io).(live := map[], blocked := {}, pending := map[], resets := map[]);
      && Initial(restarted)
      && Resume(restarted, sid, t.compatKey, io', again).1 == Some(TrackedBinding(t.(journal := false)))
  {
    WrittenReadsBackIff(t.(journal := false));
  }
}
