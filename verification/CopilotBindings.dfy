/**
  The session-binding protocol of the Copilot harness, one step per task of the keyed queue.

  A step's store outcomes are its `Io` argument: whether a lookup, a registration and a deletion
  made inside the step succeed. Steps of one session are serial; the order in which they arrive is
  free, so a run is any sequence of enabled actions.
*/
module CopilotBindings {
  import opened Options
  import opened JsText

  type SessionId = string
  type SdkId = string
  type CleanupId = nat
  type ResetId = nat

  datatype AuthMode = GitHubToken | Byok | UseLoggedInUser

  datatype Auth = Auth(mode: AuthMode, profileId: Option<string>, profileVersion: Option<string>)

  /** A binding of the live map (the client handles it also carries play no part here). */
  datatype Tracked = Tracked(
    sdkId: SdkId, compatKey: string, compactKey: string, auth: Auth, journal: bool)

  /** A value of the durable store as it was written, by this version or an older one. */
  datatype Stored =
    | Current(sdkId: SdkId, compatKey: string, compactKey: string, auth: Auth, journalVersion: Option<int>)
    | Legacy(sdkId: SdkId, compatKey: string)
    | Malformed

  /** What an attempt learns from a binding. */
  datatype Binding = Binding(sdkId: SdkId, compatKey: string, journal: bool)

  datatype Outcome = Aborted | Completed | Deadline

  /** One entry of the deferred-compaction table. */
  datatype Deferred = Deferred(session: SessionId, sdkId: SdkId, settled: bool)

  /** What a reset remembers between its first and its final step. */
  datatype Capture = Capture(session: SessionId, tracked: Option<Tracked>, stored: Option<Binding>)

  datatype Io = Io(lookupOk: bool, registerOk: bool, deleteOk: bool)

  datatype State = State(
    durable: bool,
    live: map<SessionId, Tracked>,
    store: map<SessionId, Stored>,
    blocked: set<SessionId>,
    pending: map<CleanupId, Deferred>,
    resets: map<ResetId, Capture>)

  // ---- Pure helpers -------------------------------------------------------------------------

  function SessionAuthFields(auth: Auth): Auth {
    if auth.mode.UseLoggedInUser? then Auth(UseLoggedInUser, None, None) else auth
  }

  predicate SessionAuthMatches(stored: Auth, current: Auth) {
    && stored.mode == current.mode
    && (stored.mode.UseLoggedInUser?
        || (stored.profileId == current.profileId && stored.profileVersion == current.profileVersion))
  }

  predicate Blank(s: string) {
    Trim(s) == ""
  }

  predicate Filled(s: Option<string>) {
    s.Some? && !Blank(s.value)
  }

  /** `normalizeBinding`: accepts a current binding with filled fields and trims its SDK id. */
  function NormalizeBinding(value: Stored): Option<Stored> {
    if  || !value.Current?
        || Blank(value.sdkId) || Blank(value.compatKey) || Blank(value.compactKey)
        || (value.journalVersion.Some? && value.journalVersion.value != 1)
        || (!value.auth.mode.UseLoggedInUser?
            && !(Filled(value.auth.profileId) && Filled(value.auth.profileVersion)))
    then None
    else Some(value.(sdkId := Trim(value.sdkId), auth := SessionAuthFields(value.auth)))
  }

  /** `normalizeAttemptBinding`: also accepts the binding of the older schema. */
  function NormalizeAttemptBinding(value: Stored): Option<Binding> {
    match NormalizeBinding(value)
    case Some(b) => Some(Binding(b.sdkId, b.compatKey, b.journalVersion == Some(1)))
    case None =>
      if value.Legacy? && !Blank(value.sdkId) && !Blank(value.compatKey)
      then Some(Binding(Trim(value.sdkId), value.compatKey, false))
      else None
  }

  /** The store value written beside a live binding. */
  function Written(t: Tracked): Stored {
    Current(t.sdkId, t.compatKey, t.compactKey, SessionAuthFields(t.auth),
            if t.journal then Some(1) else None)
  }

  function TrackedBinding(t: Tracked): Binding {
    Binding(t.sdkId, t.compatKey, t.journal)
  }

  function Live(s: State, sid: SessionId): Option<Tracked> {
    if sid in s.live then Some(s.live[sid]) else None
  }

  // ---- Store operations ---------------------------------------------------------------------

  function Delete(s: State, sid: SessionId, io: Io): State {
    if io.deleteOk then s.(store := s.store - {sid}) else s
  }

  function Register(s: State, sid: SessionId, value: Stored, io: Io): State {
    if !s.durable then s
    else if io.registerOk then s.(store := s.store[sid := value])
    else Delete(s, sid, io)
  }

  /** `lookupStoredBinding`: a failing lookup deletes the binding. */
  function Lookup(s: State, sid: SessionId, io: Io): (State, Option<Binding>) {
    if !io.lookupOk then (Delete(s, sid, io), None)
    else (s, if sid in s.store then NormalizeAttemptBinding(s.store[sid]) else None)
  }

  // ---- Queue tasks --------------------------------------------------------------------------

  predicate HasCleanup(s: State, sid: SessionId) {
    exists c :: c in s.pending && s.pending[c].session == sid
  }

  predicate CleanupOwns(s: State, sid: SessionId, sdk: SdkId) {
    exists c :: c in s.pending && s.pending[c].session == sid && s.pending[c].sdkId == sdk
  }

  /** `hasPendingDeferredCompactionCleanup`. */
  function HasPending(s: State, sid: SessionId, io: Io): (State, bool) {
    if !HasCleanup(s, sid) then (s, false)
    else if sid in s.live then (s, CleanupOwns(s, sid, s.live[sid].sdkId))
    else
      var (s1, stored) := Lookup(s, sid, io);
      (s1, stored.Some? && CleanupOwns(s1, sid, stored.value.sdkId))
  }

  /** Resume resolution: the binding a new attempt may resume. It may look the store up twice, first for
      the compaction check and then for the binding, with outcomes `io` and `again`. */
  function Resume(s: State, sid: SessionId, compatKey: string, io: Io, again: Io): (State, Option<Binding>) {
    var (s1, pending) := HasPending(s, sid, io);
    if pending || sid in s1.blocked then (s1, None)
    else
      var (s2, found) :=
        if sid in s1.live then (s1, Some(TrackedBinding(s1.live[sid]))) else Lookup(s1, sid, again);
      (s2, if found.Some? && found.value.compatKey == compatKey then found else None)
  }

  function Establish(s: State, sid: SessionId, t: Tracked, io: Io): State {
    var latest := t.(auth := SessionAuthFields(t.auth), journal := false);
    var s1 := Register(s, sid, Written(latest), io);
    s1.(live := s1.live[sid := latest], blocked := s1.blocked - {sid})
  }

  function Owns(found: Option<Binding>, sdk: SdkId): bool {
    found.Some? && found.value.sdkId == sdk
  }

  predicate LiveOwns(s: State, sid: SessionId, sdk: SdkId) {
    sid in s.live && s.live[sid].sdkId == sdk
  }

  function Admit(s: State, c: CleanupId, sid: SessionId, sdk: SdkId, io: Io): State {
    var (s1, stored) := Lookup(s, sid, io);
    if !LiveOwns(s, sid, sdk) && !Owns(stored, sdk) then s1
    else s1.(blocked := s1.blocked + {sid}, pending := s1.pending[c := Deferred(sid, sdk, false)])
  }

  /** Drops the bindings that a settling compaction still owns, and blocks the session if there were any. */
  function DropOwned(s: State, sid: SessionId, ownsLive: bool, ownsStored: bool, io: Io): State {
    var dropped := if ownsLive then s.(live := s.live - {sid}) else s;
    var cleared := if ownsStored then Delete(dropped, sid, io) else dropped;
    if ownsLive || ownsStored then cleared.(blocked := cleared.blocked + {sid}) else cleared
  }

  function Settle(s: State, c: CleanupId, outcome: Outcome, io: Io): State
    requires c in s.pending
  {
    var Deferred(sid, sdk, _) := s.pending[c];
    var (s1, stored) := Lookup(s, sid, io);
    var ownsLive, ownsStored := LiveOwns(s, sid, sdk), Owns(stored, sdk);
    var s2 :=
      if outcome.Completed? then
        if ownsLive || ownsStored then s1.(blocked := s1.blocked - {sid}) else s1
      else DropOwned(s1, sid, ownsLive, ownsStored, io);
    s2.(pending := s2.pending[c := Deferred(sid, sdk, true)])
  }

  /** The reaction that removes a table entry once its promise has settled or was rejected. */
  function Forget(s: State, c: CleanupId): State {
    s.(pending := s.pending - {c})
  }

  function Complete(s: State, sid: SessionId, sdk: Option<SdkId>, journal: bool, io: Io): State {
    if sdk.Some? && sdk.value != "" && LiveOwns(s, sid, sdk.value) then
      var next := s.live[sid].(journal := journal);
      var s1 := Register(s, sid, Written(next), io);
      s1.(live := s1.live[sid := next])
    else s
  }

  function ResetBegin(s: State, r: ResetId, sid: SessionId, io: Io): State {
    var (s1, stored) := Lookup(s, sid, io);
    s1.(blocked := s1.blocked + {sid}, resets := s1.resets[r := Capture(sid, Live(s1, sid), stored)])
  }

  /** Deletes the stored binding that a reset owns and lifts the block, which stays if the deletion fails. */
  function ReleaseStored(s: State, sid: SessionId, owned: bool, io: Io): State {
    var s1 := if owned then Delete(s, sid, io) else s;
    if owned && !io.deleteOk then s1 else s1.(blocked := s1.blocked - {sid})
  }

  function ResetEnd(s: State, r: ResetId, io: Io): State
    requires r in s.resets
  {
    var Capture(sid, tracked, stored) := s.resets[r];
    var (s1, current) := Lookup(s, sid, io);
    var s2 := ReleaseStored(s1, sid, stored.Some? && Owns(current, stored.value.sdkId), io);
    var s3 :=
      if tracked.Some? && LiveOwns(s2, sid, tracked.value.sdkId)
      then s2.(live := s2.live - {sid}) else s2;
    s3.(resets := s3.resets - {r})
  }

  /** The stale branch of a manual compaction. */
  function Stale(s: State, sid: SessionId, sdk: SdkId, io: Io): State {
    if LiveOwns(s, sid, sdk) then
      var s1 := Delete(s, sid, io);
      s1.(live := s1.live - {sid})
    else s
  }

  function Dispose(s: State): State {
    s.(live := map[], blocked := {})
  }

  // ---- Actions and runs ---------------------------------------------------------------------

  datatype Action =
    | ResumeA(session: SessionId, compatKey: string, io: Io, again: Io)
    | EstablishA(session: SessionId, binding: Tracked, io: Io)
    | AdmitA(cleanup: CleanupId, session: SessionId, sdkId: SdkId, io: Io)
    | SettleA(cleanup: CleanupId, outcome: Outcome, io: Io)
    | ForgetA(cleanup: CleanupId)
    | RejectedA(cleanup: CleanupId)
    | CompleteA(session: SessionId, result: Option<SdkId>, journal: bool, io: Io)
    | ResetBeginA(reset: ResetId, session: SessionId, io: Io)
    | ResetEndA(reset: ResetId, io: Io)
    | CompactProbeA(session: SessionId, io: Io)
    | StaleA(session: SessionId, sdkId: SdkId, io: Io)
    | DisposeA

  predicate Enabled(s: State, a: Action) {
    match a
    case AdmitA(c, _, _, _) => c !in s.pending
    case SettleA(c, _, _) => c in s.pending && !s.pending[c].settled
    case ForgetA(c) => c in s.pending && s.pending[c].settled
    case RejectedA(c) => c in s.pending && !s.pending[c].settled
    case ResetBeginA(r, _, _) => r !in s.resets
    case ResetEndA(r, _) => r in s.resets
    case _ => true
  }

  function Step(s: State, a: Action): State
    requires Enabled(s, a)
  {
    match a
    case ResumeA(sid, compatKey, io, again) => Resume(s, sid, compatKey, io, again).0
    case EstablishA(sid, t, io) => Establish(s, sid, t, io)
    case AdmitA(c, sid, sdk, io) => Admit(s, c, sid, sdk, io)
    case SettleA(c, outcome, io) => Settle(s, c, outcome, io)
    case ForgetA(c) => Forget(s, c)
    case RejectedA(c) => Forget(s, c)
    case CompleteA(sid, sdk, journal, io) => Complete(s, sid, sdk, journal, io)
    case ResetBeginA(r, sid, io) => ResetBegin(s, r, sid, io)
    case ResetEndA(r, io) => ResetEnd(s, r, io)
    case CompactProbeA(sid, io) => HasPending(s, sid, io).0
    case StaleA(sid, sdk, io) => Stale(s, sid, sdk, io)
    case DisposeA => Dispose(s)
  }

  ghost predicate IsRun(s: State, acts: seq<Action>)
    decreases |acts|
  {
    acts == [] || (Enabled(s, acts[0]) && IsRun(Step(s, acts[0]), acts[1..]))
  }

  ghost function Run(s: State, acts: seq<Action>): State
    requires IsRun(s, acts)
    decreases |acts|
  {
    if acts == [] then s else Run(Step(s, acts[0]), acts[1..])
  }

  /** A harness starts with no live binding and whatever earlier processes left in the store. */
  predicate Initial(s: State) {
    && s.live == map[] && s.blocked == {} && s.pending == map[] && s.resets == map[]
    && (!s.durable ==> s.store == map[])
  }
}
