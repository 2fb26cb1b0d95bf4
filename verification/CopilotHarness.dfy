/**
  The harness object itself: the maps that `createCopilotAgentHarness` closes over and the queue
  tasks that update them in place. Each method is one task, tied to its step; it keeps the agreement of
  the live map with the store, and states what the rest of the program relies on after it.
*/
module CopilotHarness {
  import opened Options
  import opened JsText
  import opened CopilotBindings
  import opened CopilotRuns
  import opened CopilotResumes

  class Harness {
    const durable: bool
    var trackedSessions: map<SessionId, Tracked>
    var sessionStore: map<SessionId, Stored>
    var resetBlockedStoredSessions: set<SessionId>
    var deferredCompactionCleanups: map<CleanupId, Deferred>
    var resetCaptures: map<ResetId, Capture>

    ghost function View(): State
      reads this
    {
      State(durable, trackedSessions, sessionStore, resetBlockedStoredSessions,
            deferredCompactionCleanups, resetCaptures)
    }

    /** A session held by both the live map and the store is named alike by both. */
    ghost predicate Valid()
      reads this
    {
      Agreement(View())
    }

    constructor (durable: bool, store: map<SessionId, Stored>)
      requires !durable ==> store == map[]
      ensures Valid() && Initial(View()) && View().store == store && View().durable == durable
    {
      this.durable := durable;
      trackedSessions, sessionStore := map[], store;
      resetBlockedStoredSessions, deferredCompactionCleanups, resetCaptures := {}, map[], map[];
    }

    method DeleteStoredBinding(key: SessionId, io: Io) returns (deleted: bool)
      modifies this`sessionStore
      ensures View() == Delete(old(View()), key, io) && deleted == io.deleteOk
      ensures old(Valid()) ==> Valid()
    {
      if io.deleteOk {
        sessionStore := sessionStore - {key};
      }
      return io.deleteOk;
    }

    method LookupStoredBinding(key: SessionId, io: Io) returns (binding: Option<Binding>)
      modifies this`sessionStore
      ensures (View(), binding) == Lookup(old(View()), key, io)
      ensures old(Valid()) ==> Valid()
      ensures binding.Some? ==> StoreNames(View(), key, binding.value.sdkId) && sessionStore == old(sessionStore)
    {
      if !io.lookupOk {
        var _ := DeleteStoredBinding(key, io);
        return None;
      }
      if key in sessionStore {
        return NormalizeAttemptBinding(sessionStore[key]);
      }
      return None;
    }

    method RegisterStoredBinding(key: SessionId, value: Stored, io: Io)
      modifies this`sessionStore
      ensures View() == Register(old(View()), key, value, io)
    {
      if durable {
        if io.registerOk {
          sessionStore := sessionStore[key := value];
        } else {
          var _ := DeleteStoredBinding(key, io);
        }
      }
    }

    method HasPendingDeferredCompactionCleanup(sid: SessionId, io: Io) returns (pending: bool)
      modifies this`sessionStore
      ensures (View(), pending) == HasPending(old(View()), sid, io)
      ensures old(Valid()) ==> Valid()
      ensures sid in trackedSessions ==> pending == CleanupOwns(View(), sid, trackedSessions[sid].sdkId)
    {
      var any := exists c :: c in deferredCompactionCleanups && deferredCompactionCleanups[c].session == sid;
      if !any {
        return false;
      }
      var current: Option<SdkId> := None;
      if sid in trackedSessions {
        current := Some(trackedSessions[sid].sdkId);
      } else {
        var stored := LookupStoredBinding(sid, io);
        if stored.Some? {
          current := Some(stored.value.sdkId);
        }
      }
      pending := current.Some? &&
        exists c :: c in deferredCompactionCleanups
          && deferredCompactionCleanups[c].session == sid
          && deferredCompactionCleanups[c].sdkId == current.value;
    }

    method ResolveResume(sid: SessionId, compatKey: string, io: Io, again: Io) returns (binding: Option<Binding>)
      modifies this`sessionStore
      ensures (View(), binding) == Resume(old(View()), sid, compatKey, io, again)
      ensures old(Valid()) ==> Valid()
      ensures (sid in trackedSessions && sid !in resetBlockedStoredSessions
               && !Compacting(old(View()), sid, trackedSessions[sid].sdkId)) ==>
        var t := trackedSessions[sid];
        View() == old(View())
        && binding == if t.compatKey == compatKey then Some(Binding(t.sdkId, t.compatKey, t.journal)) else None
      ensures binding.Some? ==>
        sid !in resetBlockedStoredSessions && binding.value.compatKey == compatKey
        && Names(old(View()), sid, binding.value.sdkId)
      ensures binding.Some? && (io.lookupOk || io.deleteOk) ==>
        forall c :: !Unsettled(View(), c, sid, binding.value.sdkId)
    {
      if sid in trackedSessions && sid !in resetBlockedStoredSessions
        && !Compacting(View(), sid, trackedSessions[sid].sdkId) {
        LiveIsResumedIff(View(), sid, compatKey, io, again);
      }
      var pending := HasPendingDeferredCompactionCleanup(sid, io);
      if pending || sid in resetBlockedStoredSessions {
        return None;
      }
      if sid in trackedSessions {
        binding := Some(TrackedBinding(trackedSessions[sid]));
      } else {
        binding := LookupStoredBinding(sid, again);
      }
      if binding.Some? && binding.value.compatKey != compatKey {
        binding := None;
      }
    }

    method OnSessionEstablished(sid: SessionId, t: Tracked, io: Io)
      modifies this
      ensures View() == Step(old(View()), EstablishA(sid, t, io))
      ensures old(Valid()) && (io.registerOk || io.deleteOk) ==> Valid()
      ensures LiveOwns(View(), sid, t.sdkId) && sid !in resetBlockedStoredSessions
    {
      var tracked := t.(auth := SessionAuthFields(t.auth), journal := false);
      RegisterStoredBinding(sid, Written(tracked), io);
      trackedSessions := trackedSessions[sid := tracked];
      resetBlockedStoredSessions := resetBlockedStoredSessions - {sid};
    }

    method OnDeferredCompaction(c: CleanupId, sid: SessionId, sdk: SdkId, io: Io)
      requires c !in deferredCompactionCleanups
      modifies this
      ensures View() == Step(old(View()), AdmitA(c, sid, sdk, io))
      ensures old(Valid()) ==> Valid()
      ensures Unsettled(View(), c, sid, sdk) <==>
        LiveOwns(old(View()), sid, sdk) || Owns(Lookup(old(View()), sid, io).1, sdk)
      ensures Unsettled(View(), c, sid, sdk) ==> sid in resetBlockedStoredSessions
    {
      var ownsTracked := sid in trackedSessions && trackedSessions[sid].sdkId == sdk;
      var stored := LookupStoredBinding(sid, io);
      var ownsStored := stored.Some? && stored.value.sdkId == sdk;
      if !ownsTracked && !ownsStored {
        return;
      }
      resetBlockedStoredSessions := resetBlockedStoredSessions + {sid};
      deferredCompactionCleanups := deferredCompactionCleanups[c := Deferred(sid, sdk, false)];
    }

    method SettleDeferredCompaction(c: CleanupId, outcome: Outcome, io: Io)
      requires c in deferredCompactionCleanups && !deferredCompactionCleanups[c].settled
      modifies this
      ensures View() == Step(old(View()), SettleA(c, outcome, io))
      ensures old(Valid()) ==> Valid()
      ensures !outcome.Completed? ==>
        var d := old(deferredCompactionCleanups)[c];
        Names(View(), d.session, d.sdkId) <==> !io.deleteOk && StoreNames(old(View()), d.session, d.sdkId)
    {
      hide Agreement, Names, Settle, Step;
      SettleGuarantees(View(), c, outcome, io);
      RunSettlingStep(c, outcome, io);
    }

    /** The queue task of the settling step. */
    method RunSettlingStep(c: CleanupId, outcome: Outcome, io: Io)
      requires c in deferredCompactionCleanups
      modifies this
      ensures View() == Settle(old(View()), c, outcome, io)
    {
      hide DropOwned, Lookup;
      var sid, sdk := deferredCompactionCleanups[c].session, deferredCompactionCleanups[c].sdkId;
      var stillOwnsTracked := sid in trackedSessions && trackedSessions[sid].sdkId == sdk;
      var stored := LookupStoredBinding(sid, io);
      var stillOwnsStored := stored.Some? && stored.value.sdkId == sdk;
      if outcome.Completed? {
        if stillOwnsTracked || stillOwnsStored {
          resetBlockedStoredSessions := resetBlockedStoredSessions - {sid};
        }
      } else {
        DropOwnedBindings(sid, stillOwnsTracked, stillOwnsStored, io);
      }
      deferredCompactionCleanups := deferredCompactionCleanups[c := Deferred(sid, sdk, true)];
    }

    method DropOwnedBindings(sid: SessionId, ownsTracked: bool, ownsStored: bool, io: Io)
      modifies this`trackedSessions, this`sessionStore, this`resetBlockedStoredSessions
      ensures View() == DropOwned(old(View()), sid, ownsTracked, ownsStored, io)
      ensures ownsTracked || ownsStored ==> sid in resetBlockedStoredSessions
    {
      if ownsTracked {
        trackedSessions := trackedSessions - {sid};
      }
      if ownsStored {
        var _ := DeleteStoredBinding(sid, io);
      }
      if ownsTracked || ownsStored {
        resetBlockedStoredSessions := resetBlockedStoredSessions + {sid};
      }
    }

    method RemoveDeferredCompactionCleanup(c: CleanupId)
      modifies this`deferredCompactionCleanups
      ensures View() == Forget(old(View()), c)
      ensures old(Valid()) ==> Valid()
      ensures forall sid, sdk :: !Unsettled(View(), c, sid, sdk)
    {
      deferredCompactionCleanups := deferredCompactionCleanups - {c};
    }

    method CompleteAttempt(sid: SessionId, sdk: Option<SdkId>, journalValidated: bool, io: Io)
      modifies this
      ensures View() == Step(old(View()), CompleteA(sid, sdk, journalValidated, io))
      ensures old(Valid()) && (io.registerOk || io.deleteOk) ==> Valid()
      ensures sdk.Some? && sdk.value != "" && LiveOwns(old(View()), sid, sdk.value) ==>
        trackedSessions == old(trackedSessions)[sid := old(trackedSessions)[sid].(journal := journalValidated)]
      ensures trackedSessions.Keys == old(trackedSessions).Keys
      ensures forall x :: x in trackedSessions ==> trackedSessions[x].sdkId == old(trackedSessions)[x].sdkId
    {
      if sdk.Some? && sdk.value != "" && sid in trackedSessions && trackedSessions[sid].sdkId == sdk.value {
        var next := trackedSessions[sid].(journal := journalValidated);
        RegisterStoredBinding(sid, Written(next), io);
        trackedSessions := trackedSessions[sid := next];
      }
    }

    method BeginReset(r: ResetId, sid: SessionId, io: Io)
      requires r !in resetCaptures
      modifies this
      ensures View() == Step(old(View()), ResetBeginA(r, sid, io))
      ensures old(Valid()) ==> Valid()
      ensures sid in resetBlockedStoredSessions && trackedSessions == old(trackedSessions)
    {
      var stored := LookupStoredBinding(sid, io);
      resetBlockedStoredSessions := resetBlockedStoredSessions + {sid};
      var tracked := if sid in trackedSessions then Some(trackedSessions[sid]) else None;
      resetCaptures := resetCaptures[r := Capture(sid, tracked, stored)];
    }

    method FinishReset(r: ResetId, io: Io)
      requires r in resetCaptures
      modifies this
      ensures View() == Step(old(View()), ResetEndA(r, io))
      ensures old(Valid()) ==> Valid()
      ensures var k := old(resetCaptures)[r];
        k.tracked.Some? ==> !LiveOwns(View(), k.session, k.tracked.value.sdkId)
      ensures forall sdk :: StoreNames(View(), old(resetCaptures)[r].session, sdk) <==> !Releases(old(View()), r, sdk, io)
      ensures forall x :: x in old(sessionStore) ==>
        (x !in sessionStore <==> var k := old(resetCaptures)[r];
          x == k.session && io.deleteOk
          && (!io.lookupOk || (k.stored.Some? && StoreNames(old(View()), x, k.stored.value.sdkId))))
    {
      hide Agreement, StoreNames, ResetEnd, Step, LiveOwns, Releases;
      FinishGuarantees(View(), r, io);
      RunFinalStep(r, io);
    }

    /** The queue task of the final step. */
    method RunFinalStep(r: ResetId, io: Io)
      requires r in resetCaptures
      modifies this
      ensures View() == ResetEnd(old(View()), r, io)
    {
      hide ReleaseStored, Lookup;
      var Capture(sid, tracked, stored) := resetCaptures[r];
      var current := LookupStoredBinding(sid, io);
      ReleaseStoredBinding(sid, stored.Some? && current.Some? && current.value.sdkId == stored.value.sdkId, io);
      if tracked.Some? && sid in trackedSessions && trackedSessions[sid].sdkId == tracked.value.sdkId {
        trackedSessions := trackedSessions - {sid};
      }
      resetCaptures := resetCaptures - {r};
    }

    method ReleaseStoredBinding(sid: SessionId, owned: bool, io: Io)
      modifies this`sessionStore, this`resetBlockedStoredSessions
      ensures View() == ReleaseStored(old(View()), sid, owned, io)
      ensures owned && !io.deleteOk ==> resetBlockedStoredSessions == old(resetBlockedStoredSessions)
    {
      if owned {
        var deleted := DeleteStoredBinding(sid, io);
        if deleted {
          resetBlockedStoredSessions := resetBlockedStoredSessions - {sid};
        }
      } else {
        resetBlockedStoredSessions := resetBlockedStoredSessions - {sid};
      }
    }

    method DropStaleBinding(sid: SessionId, sdk: SdkId, io: Io)
      modifies this
      ensures View() == Step(old(View()), StaleA(sid, sdk, io))
      ensures old(Valid()) ==> Valid()
      ensures !LiveOwns(View(), sid, sdk)
    {
      if sid in trackedSessions && trackedSessions[sid].sdkId == sdk {
        var _ := DeleteStoredBinding(sid, io);
        trackedSessions := trackedSessions - {sid};
      }
    }

    method ClearOnDispose()
      modifies this
      ensures View() == Step(old(View()), DisposeA)
      ensures old(Valid()) ==> Valid()
    {
      trackedSessions := map[];
      resetBlockedStoredSessions := {};
    }
  }

  lemma {:induction false} SettleGuarantees(s: State, c: CleanupId, outcome: Outcome, io: Io)
    requires Enabled(s, SettleA(c, outcome, io))
    ensures Step(s, SettleA(c, outcome, io)) == Settle(s, c, outcome, io)
    ensures Agreement(s) ==> Agreement(Settle(s, c, outcome, io))
    ensures !outcome.Completed? ==>
      (Names(Settle(s, c, outcome, io), s.pending[c].session, s.pending[c].sdkId)
       <==> !io.deleteOk && StoreNames(s, s.pending[c].session, s.pending[c].sdkId))
  {
    hide Agreement, Names, Settle;
    if Agreement(s) {
      AgreementStep(s, SettleA(c, outcome, io));
    }
    if !outcome.Completed? {
      AbortedSettleNamesIff(s, c, outcome, io);
    }
  }

  lemma {:induction false} FinishGuarantees(s: State, r: ResetId, io: Io)
    requires Enabled(s, ResetEndA(r, io))
    ensures Step(s, ResetEndA(r, io)) == ResetEnd(s, r, io)
    ensures Agreement(s) ==> Agreement(ResetEnd(s, r, io))
    ensures var k, s' := s.resets[r], ResetEnd(s, r, io);
      && (k.tracked.Some? ==> !LiveOwns(s', k.session, k.tracked.value.sdkId))
      && (forall sdk :: StoreNames(s', k.session, sdk) <==> !Releases(s, r, sdk, io))
      && (forall x :: x in s.store ==>
            (x !in s'.store <==>
              (x == k.session && io.deleteOk
               && (!io.lookupOk || (k.stored.Some? && StoreNames(s, x, k.stored.value.sdkId))))))
  {
    hide Agreement, StoreNames, ResetEnd, Releases, LiveOwns;
    if Agreement(s) {
      AgreementStep(s, ResetEndA(r, io));
    }
    forall sdk ensures StoreNames(ResetEnd(s, r, io), s.resets[r].session, sdk) <==> !Releases(s, r, sdk, io) {
      ResetEndNamesIff(s, r, sdk, io);
    }
    if s.resets[r].tracked.Some? {
      ResetEndNamesIff(s, r, s.resets[r].tracked.value.sdkId, io);
    }
    forall x | x in s.store
      ensures x !in ResetEnd(s, r, io).store <==>
        (x == s.resets[r].session && io.deleteOk
         && (!io.lookupOk || (s.resets[r].stored.Some? && StoreNames(s, x, s.resets[r].stored.value.sdkId))))
    {
      ResetEndRemovesIff(s, r, io, x);
    }
  }
}
