/**
  What the binding protocol is for: a session that was established is resumed, with its own SDK session,
  until something writes, blocks or drops it.
*/
module CopilotResumes {
  import opened Options
  import opened JsText
  import opened CopilotBindings
  import opened CopilotRuns

  // ---- One resolution -------------------------------------------------------------------------

  /** Some compaction of the session that is still in the table owns the SDK session. */
  predicate Compacting(s: State, sid: SessionId, sdk: SdkId) {
    exists c :: c in s.pending && s.pending[c].session == sid && s.pending[c].sdkId == sdk
  }

  /** A live session that is not blocked, and that no compaction owns, is resumed with its own SDK session,
      key and journal flag exactly when the keys agree, whatever the store does. */
  lemma {:induction false} LiveIsResumedIff(s: State, sid: SessionId, compatKey: string, io: Io, again: Io)
    requires sid in s.live && sid !in s.blocked && !Compacting(s, sid, s.live[sid].sdkId)
    ensures var t := s.live[sid];
      Resume(s, sid, compatKey, io, again) ==
        (s, if t.compatKey == compatKey then Some(Binding(t.sdkId, t.compatKey, t.journal)) else None)
  {
  }

  /** The same for a session that is only stored, by this version or by an older one, when the lookups
      succeed. */
  lemma {:induction false} StoredIsResumedIff(s: State, sid: SessionId, compatKey: string, io: Io, again: Io)
    requires sid !in s.live && sid in s.store && sid !in s.blocked && io.lookupOk && again.lookupOk
    requires var v := s.store[sid];
      v.Malformed? || !Compacting(s, sid, Trim(v.sdkId))
    ensures Resume(s, sid, compatKey, io, again).0 == s
    ensures var v := s.store[sid];
      Resume(s, sid, compatKey, io, again).1 ==
        if Readable(v) && v.compatKey == compatKey
        then Some(Binding(Trim(v.sdkId), v.compatKey, v.Current? && v.journalVersion == Some(1)))
        else None
  {
    ReadableIff(s.store[sid]);
    hide NormalizeAttemptBinding, Readable;
  }

  /** After disposal nothing is live or blocked: a session is resumed from the store alone. */
  lemma {:induction false} DisposedResumesFromStore(s: State, sid: SessionId, compatKey: string, io: Io, again: Io)
    requires sid in s.store && io.lookupOk && again.lookupOk
    requires var v := s.store[sid];
      v.Malformed? || !Compacting(s, sid, Trim(v.sdkId))
    ensures var v := s.store[sid];
      Resume(Dispose(s), sid, compatKey, io, again).1 ==
        if Readable(v) && v.compatKey == compatKey
        then Some(Binding(Trim(v.sdkId), v.compatKey, v.Current? && v.journalVersion == Some(1)))
        else None
    ensures Dispose(s).store == s.store && Dispose(s).pending == s.pending
  {
    var d := Dispose(s);
    assert d.store == s.store && d.pending == s.pending;
    StoredIsResumedIff(d, sid, compatKey, io, again);
    hide Resume, Readable;
  }

  predicate HasText(text: string) {
    exists i :: 0 <= i < |text| && !IsSpace(text[i])
  }

  predicate HasTextOption(text: Option<string>) {
    text.Some? && HasText(text.value)
  }

  /** A stored value that can be used: its fields are not blank, and a token or a provider names its profile. */
  predicate Readable(v: Stored) {
    match v
    case Current(sdkId, compatKey, compactKey, auth, journalVersion) =>
      && HasText(sdkId) && HasText(compatKey) && HasText(compactKey)
      && (journalVersion == None || journalVersion == Some(1))
      && (auth.mode.UseLoggedInUser? || (HasTextOption(auth.profileId) && HasTextOption(auth.profileVersion)))
    case Legacy(sdkId, compatKey) => HasText(sdkId) && HasText(compatKey)
    case Malformed => false
  }

  lemma {:induction false} BlankIff(text: string)
    ensures Trim(text) == "" <==> !HasText(text)
  {
    StartIff(text);
    if TrimStart(text) != [] {
      TrimStartFirst(text);
      TrimEndKeepsFirst(TrimStart(text));
    }
  }

  lemma {:induction false} StartIff(text: string)
    ensures TrimStart(text) == "" <==> !HasText(text)
  {
    if text != [] {
      StartIff(text[1..]);
      assert text == [text[0]] + text[1..];
      if HasText(text) && IsSpace(text[0]) {
        var i :| 0 <= i < |text| && !IsSpace(text[i]);
        assert !IsSpace(text[1..][i - 1]);
      }
      if HasText(text[1..]) {
        var i :| 0 <= i < |text[1..]| && !IsSpace(text[1..][i]);
        assert !IsSpace(text[i + 1]);
      }
    }
  }

  lemma {:induction false} ReadableIff(v: Stored)
    ensures NormalizeAttemptBinding(v) ==
      if Readable(v) then Some(Binding(Trim(v.sdkId), v.compatKey, v.Current? && v.journalVersion == Some(1)))
      else None
  {
    hide Trim, HasText, IsSpace;
    match v
    case Current(sdkId, compatKey, compactKey, auth, _) =>
      BlankIff(sdkId);
      BlankIff(compatKey);
      BlankIff(compactKey);
      if auth.profileId.Some? {
        BlankIff(auth.profileId.value);
      }
      if auth.profileVersion.Some? {
        BlankIff(auth.profileVersion.value);
      }
    case Legacy(sdkId, compatKey) =>
      BlankIff(sdkId);
      BlankIff(compatKey);
    case Malformed =>
  }

  // ---- Runs that leave a session alone --------------------------------------------------------

  /** The step may write, block or drop the session. */
  predicate Touches(s: State, a: Action, sid: SessionId) {
    match a
    case EstablishA(x, _, _) => x == sid
    case AdmitA(_, x, _, _) => x == sid
    case SettleA(c, _, _) => c in s.pending && s.pending[c].session == sid
    case CompleteA(x, _, _, _) => x == sid
    case ResetBeginA(_, x, _) => x == sid
    case ResetEndA(r, _) => r in s.resets && s.resets[r].session == sid
    case StaleA(x, _, _) => x == sid
    case DisposeA => true
    case _ => false
  }

  ghost predicate LeavesAlone(s: State, acts: seq<Action>, sid: SessionId)
    requires IsRun(s, acts)
    decreases |acts|
  {
    acts == [] || (!Touches(s, acts[0], sid) && LeavesAlone(Step(s, acts[0]), acts[1..], sid))
  }

  /** The session is live with this binding, unblocked, and no compaction owns it. */
  predicate Resumable(s: State, sid: SessionId, t: Tracked) {
    sid in s.live && s.live[sid] == t && sid !in s.blocked && !Compacting(s, sid, t.sdkId)
  }

  lemma {:induction false} UntouchedStep(s: State, a: Action, sid: SessionId, t: Tracked)
    requires Enabled(s, a) && !Touches(s, a, sid) && Resumable(s, sid, t)
    ensures Resumable(Step(s, a), sid, t)
  {
    hide NormalizeAttemptBinding, Settle, Admit, Forget, Resume, HasPending, ResetBegin, ResetEnd, Stale, Establish, Complete;
    match a
    case EstablishA(x, t', io) => WriteElsewhere(s, x, t', None, false, io, sid, t);
    case CompleteA(x, sdk, journal, io) => WriteElsewhere(s, x, t, sdk, journal, io, sid, t);
    case ResetBeginA(r, x, io) => DropElsewhere(s, r, x, "", io, sid, t);
    case StaleA(x, sdk, io) => DropElsewhere(s, 0, x, sdk, io, sid, t);
    case ResumeA(x, compatKey, io, again) => ResumeFrame(s, x, compatKey, io, again);
    case AdmitA(c, x, sdk, io) => AdmitElsewhere(s, c, x, sdk, io, sid, t);
    case SettleA(c, outcome, io) => SettleElsewhere(s, c, outcome, io, sid, t);
    case ForgetA(c) => ForgetKeeps(s, c, sid, t);
    case RejectedA(c) => ForgetKeeps(s, c, sid, t);
    case ResetEndA(r, io) => ResetEndElsewhere(s, r, io, sid, t);
    case CompactProbeA(x, io) => ProbeFrame(s, x, io);
    case _ =>
  }

  lemma WriteElsewhere(
    s: State, x: SessionId, t': Tracked, sdk: Option<SdkId>, journal: bool, io: Io, sid: SessionId, t: Tracked)
    requires x != sid && Resumable(s, sid, t)
    ensures Resumable(Establish(s, x, t', io), sid, t) && Resumable(Complete(s, x, sdk, journal, io), sid, t)
  {
    hide NormalizeAttemptBinding;
  }

  lemma DropElsewhere(s: State, r: ResetId, x: SessionId, sdk: SdkId, io: Io, sid: SessionId, t: Tracked)
    requires x != sid && Resumable(s, sid, t)
    ensures Resumable(ResetBegin(s, r, x, io), sid, t) && Resumable(Stale(s, x, sdk, io), sid, t)
  {
    hide NormalizeAttemptBinding;
    LookupFrame(s, x, io);
  }

  lemma ResetEndElsewhere(s: State, r: ResetId, io: Io, sid: SessionId, t: Tracked)
    requires r in s.resets && s.resets[r].session != sid && Resumable(s, sid, t)
    ensures Resumable(ResetEnd(s, r, io), sid, t)
  {
    hide NormalizeAttemptBinding;
    LookupFrame(s, s.resets[r].session, io);
  }

  lemma {:induction false} AdmitElsewhere(
    s: State, c: CleanupId, x: SessionId, sdk: SdkId, io: Io, sid: SessionId, t: Tracked)
    requires c !in s.pending && x != sid && Resumable(s, sid, t)
    ensures Resumable(Admit(s, c, x, sdk, io), sid, t)
  {
    hide NormalizeAttemptBinding;
    LookupFrame(s, x, io);
    var s' := Admit(s, c, x, sdk, io);
  }

  lemma {:induction false} SettleElsewhere(
    s: State, c: CleanupId, outcome: Outcome, io: Io, sid: SessionId, t: Tracked)
    requires c in s.pending && s.pending[c].session != sid && Resumable(s, sid, t)
    ensures Resumable(Settle(s, c, outcome, io), sid, t)
  {
    hide NormalizeAttemptBinding;
    SettleFrame(s, c, outcome, io);
    LookupFrame(s, s.pending[c].session, io);
    var s' := Settle(s, c, outcome, io);
  }

  lemma {:induction false} ForgetKeeps(s: State, c: CleanupId, sid: SessionId, t: Tracked)
    requires c in s.pending && Resumable(s, sid, t)
    ensures Resumable(Forget(s, c), sid, t)
  {
    var s' := Forget(s, c);
  }

  lemma {:induction false} UntouchedRun(s: State, acts: seq<Action>, sid: SessionId, t: Tracked)
    requires IsRun(s, acts) && LeavesAlone(s, acts, sid) && Resumable(s, sid, t)
    ensures Resumable(Run(s, acts), sid, t)
    decreases |acts|
  {
    hide Resumable, Step, Enabled, Touches;
    if acts != [] {
      UntouchedStep(s, acts[0], sid, t);
      UntouchedRun(Step(s, acts[0]), acts[1..], sid, t);
    }
  }

  /** After an attempt established its SDK session, and any steps that neither write, block nor drop the
      session, the next attempt with the same key resumes it, and one with another key does not. */
  lemma {:induction false} EstablishedIsResumed(
    s: State, sid: SessionId, t: Tracked, io: Io, acts: seq<Action>, compatKey: string, io': Io, again: Io)
    requires !Compacting(s, sid, t.sdkId)
    requires IsRun(Establish(s, sid, t, io), acts) && LeavesAlone(Establish(s, sid, t, io), acts, sid)
    ensures Resume(Run(Establish(s, sid, t, io), acts), sid, compatKey, io', again).1 ==
      if compatKey == t.compatKey then Some(Binding(t.sdkId, t.compatKey, false)) else None
  {
    hide Resume, NormalizeAttemptBinding;
    var s1 := Establish(s, sid, t, io);
    var bound := s1.live[sid];
    assert s1.pending == s.pending;
    assert bound.sdkId == t.sdkId && bound.compatKey == t.compatKey && !bound.journal;
    UntouchedRun(s1, acts, sid, bound);
    LiveIsResumedIff(Run(s1, acts), sid, compatKey, io', again);
  }

  // ---- Completed attempts, completed compactions, finished resets -----------------------------

  /** A completed attempt marks its session with its journal flag, which the next attempt then learns; an
      attempt of another SDK session changes nothing. */
  lemma {:induction false} CompletedAttemptIsResumed(
    s: State, sid: SessionId, sdk: SdkId, journal: bool, io: Io, io': Io, again: Io)
    requires sid in s.live && sdk != ""
    ensures s.live[sid].sdkId != sdk ==> Complete(s, sid, Some(sdk), journal, io) == s
    ensures s.live[sid].sdkId == sdk && sid !in s.blocked && !Compacting(s, sid, sdk) ==>
      Resume(Complete(s, sid, Some(sdk), journal, io), sid, s.live[sid].compatKey, io', again).1
        == Some(Binding(sdk, s.live[sid].compatKey, journal))
  {
    hide Resume, NormalizeAttemptBinding;
    var s' := Complete(s, sid, Some(sdk), journal, io);
    if s.live[sid].sdkId == sdk && sid !in s.blocked && !Compacting(s, sid, sdk) {
      assert s'.pending == s.pending;
      LiveIsResumedIff(s', sid, s.live[sid].compatKey, io', again);
    }
  }

  /** A completed compaction of a live session lifts the block; once its table entry is gone, and no other
      compaction owns the session, it is resumed. */
  lemma {:induction false} CompletedCompactionIsResumed(
    s: State, c: CleanupId, io: Io, io': Io, again: Io)
    requires Enabled(s, SettleA(c, Completed, io))
    requires LiveOwns(s, s.pending[c].session, s.pending[c].sdkId)
    requires forall d :: d in s.pending && d != c ==>
      s.pending[d].session != s.pending[c].session || s.pending[d].sdkId != s.pending[c].sdkId
    ensures var Deferred(sid, sdk, _) := s.pending[c];
      var t := s.live[sid];
      && Enabled(Settle(s, c, Completed, io), ForgetA(c))
      && Resume(Forget(Settle(s, c, Completed, io), c), sid, t.compatKey, io', again).1
           == Some(Binding(sdk, t.compatKey, t.journal))
  {
    hide Resume, NormalizeAttemptBinding;
    var Deferred(sid, sdk, _) := s.pending[c];
    LookupFrame(s, sid, io);
    var s1 := Settle(s, c, Completed, io);
    var s2 := Forget(s1, c);
    assert s2.live == s.live && sid !in s2.blocked;
    LiveIsResumedIff(s2, sid, s.live[sid].compatKey, io', again);
  }

  /** A compaction that no binding owns any more changes no binding and no block, however it ends; one that is
      refused admission changes none either. */
  lemma {:induction false} UnownedCompactionChangesNothing(
    s: State, c: CleanupId, sid: SessionId, sdk: SdkId, outcome: Outcome, io: Io)
    requires !LiveOwns(s, sid, sdk) && !Owns(Lookup(s, sid, io).1, sdk) && io.lookupOk
    ensures c !in s.pending ==> Admit(s, c, sid, sdk, io) == s
    ensures c in s.pending && s.pending[c] == Deferred(sid, sdk, false) ==>
      Settle(s, c, outcome, io) == s.(pending := s.pending[c := Deferred(sid, sdk, true)])
  {
    hide NormalizeAttemptBinding;
  }

  /** After the final step of a reset its session is blocked only if it was before, and the stored binding that
      the step owns could not be deleted. */
  lemma {:induction false} ResetEndBlocksIff(s: State, r: ResetId, io: Io)
    requires r in s.resets
    ensures var k := s.resets[r];
      (k.session in ResetEnd(s, r, io).blocked <==>
        k.session in s.blocked && io.lookupOk && !io.deleteOk
        && k.stored.Some? && StoreNames(s, k.session, k.stored.value.sdkId))
    ensures ResetEnd(s, r, io).blocked - {s.resets[r].session} == s.blocked - {s.resets[r].session}
  {
    hide NormalizeAttemptBinding;
    LookupFrame(s, s.resets[r].session, io);
  }

  /** A stale session loses both bindings, if the deletion succeeds; another one is left alone. */
  lemma {:induction false} StaleIsDropped(s: State, sid: SessionId, sdk: SdkId, io: Io)
    ensures !(sid in s.live && s.live[sid].sdkId == sdk) ==> Stale(s, sid, sdk, io) == s
    ensures sid in s.live && s.live[sid].sdkId == sdk ==>
      Stale(s, sid, sdk, io) ==
        s.(live := s.live - {sid}, store := if io.deleteOk then s.store - {sid} else s.store)
  {
  }
}
