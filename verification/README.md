# Verified models of OpenClaw's protocols, streams and rewriters

This project models the parts of OpenClaw whose correctness is hardest to see from one function body, and proves what
they promise over every run or every input. `dafny verify dfyconfig.toml` checks all of it.

State machines are given twice: as pure step functions, over which whole runs are reasoned about, and as classes
whose methods change fields as the program does and are proved to take exactly those steps. Loops are methods proved
equal to recursive functions, and the properties are proved about those functions.

- **Copilot session bindings** (`CopilotBindings`, `CopilotRuns`, `CopilotResumes`, `CopilotHarness`). One action per
  task of the keyed queue, in any order, each with its own outcome of lookup, registration and deletion. The fence around deferred
  compactions, the agreement of live map and store, the finality of resets and aborted compactions and what is resumed
  after an attempt are stated for all runs, with the outcomes under which they hold.
- **ACPX lazy lifecycle** (`AcpxLifecycle`, `AcpxRuns`, `AcpxScenarios`, `AcpxService`). One action per stretch
  between two awaits; foreign plugins may write the registry slot at any time, and the inner stop may reject. The runs considered are those
  in which `stop` does not begin anew while a call still has to go on after an earlier stop. Two runs show that this is
  needed; the second stop in them is called from within the first call that goes on, by the registry or the logger,
  since nothing else can come between two calls that wait on one promise.
- **Bedrock stream machine** (`BedrockStream`, `BedrockRuns`, `BedrockHeard`, `BedrockMachine`), whose messages are
  stated over the received items alone, and **message conversion** (`BedrockConvert`, `BedrockConvertProofs`,
  `BedrockConserved`), whose output is stated over the transcript alone.
- **Google SSE parser** (`GoogleSse`, `GoogleSseStreams`), against a reference that reads one line at a time and against
  the lines that a server writes, and **video slots** (`GoogleVideo`, `GoogleVideoRequest`), over a heap in which an object may occur in several places.
- **Native string literals** (`NativeLiteral`, `NativeMultiline`) and the **string inventory** (`NativeInventory`,
  `Sorting`).
- **Claude CLI restriction** (`ClaudeArgs`, `ClaudeRestriction`, `ClaudeReading`), **module preloading**
  (`ModulePreload`) and **WAV containers** (`Riff`).

Promises that the code does not keep on all inputs are stated with the exact condition under which it does, and a
concrete failing input:

- live map and store disagree after a write whose registration and clean-up deletion both fail
  (`CopilotRuns.EstablishAgreesIff`, `CopilotRuns.CompleteAgreesIff`, `CopilotRuns.LostWriteDisagrees`);
- a session under compaction is resumed when the first lookup of the resolution and its deletion fail while the second
  lookup succeeds (`CopilotRuns.CompactionFencesResume`, `CopilotRuns.FailedLookupOpensTheFence`);
- the comment on `reset` in `extensions/copilot/harness.ts` says that a reset never deletes a replacement session; it
  does delete one with the same SDK id, and from the store any one when the lookup of its final step fails
  (`CopilotRuns.ResetEndRemovesIff`, `CopilotRuns.ResetDropsSameIdReplacement`,
  `CopilotRuns.FailedLookupDropsReplacement`);
- a reset or an aborted compaction is final unless the store still names the session and the deletion fails or does not
  run (`CopilotRuns.ResetIsFinal`, `CopilotRuns.AbortedCompactionIsFinal`, `CopilotRuns.FailedResetResumes`);
- with deltas and stops that carry an index, a finished Bedrock message is whole exactly when every announced tool call
  carries one too; a stop without an index ends a tool call without one (`BedrockRuns.WholeIffToolsIndexed`,
  `BedrockRuns.UnindexedToolCallLeaks`, `BedrockRuns.UnindexedStopEnds`);
- an empty literal followed by a quote is read as the start of a triple-quoted one (`NativeLiteral.ReadsBackIff`), and a
  triple quote inside a triple-quoted literal ends it (`NativeLiteral.MultilineReadsBackIff`);
- a NUL in a path lets two sites share a key, so one is lost and the order of candidates shows
  (`NativeInventory.CanonicalIff`, `NativeInventory.NulPathsHideSites`);
- a denial list or a tool list that starts with a dash is taken for an option on the second reading
  (`ClaudeRestriction.DenialsKeptIff`, `ClaudeRestriction.RestrictTwiceIff`, `ClaudeRestriction.DashedDenialIsLost`,
  `ClaudeRestriction.DashedToolIsKept`).

## Model

| member | source | states |
|---|---|---|
| `CopilotRuns.CompactionFencesResume` | extensions/copilot/harness.ts:459-568 | From the step that admits a deferred compaction until its own settling or rejection, in every interleaving and even after the reset block was cleared, a resume resolution returns that SDK session if and only if its first lookup and the clean-up deletion fail, the second lookup succeeds and nothing is live or blocked; in particular never where the first lookup or the deletion succeeds |
| `CopilotRuns.UnsettledBlocksResume` | extensions/copilot/harness.ts:490-568 | The same in any state with an unsettled compaction, with separate outcomes for the two lookups of one resolution |
| `CopilotRuns.FailedLookupOpensTheFence` | extensions/copilot/harness.ts:490-568 | A run into that one hole: two compactions of a stored session, one completed, then a resume whose first lookup and deletion fail |
| `CopilotRuns.AdmitIffOwned` | extensions/copilot/harness.ts:637-688 | A compaction is admitted if and only if the live or the stored binding names its SDK session |
| `CopilotRuns.LiveAndStoreAgree` | extensions/copilot/harness.ts:611-716 | In every reachable state a session held by the live map and by the store has the same SDK session, compat key, compact key, auth and journal version in both, unless one write lost both its registration and its clean-up deletion |
| `CopilotRuns.AgreementStep` | extensions/copilot/harness.ts:459-1000 | Every queue step keeps that agreement, with failing lookups, registrations and deletions |
| `CopilotRuns.EstablishAgreesIff` | extensions/copilot/harness.ts:211-234 | Establishing keeps the agreement if and only if the registration or the deletion succeeds, or the store held nothing or already the same value |
| `CopilotRuns.CompleteAgreesIff` | extensions/copilot/harness.ts:690-716 | The completion write keeps the agreement if and only if the registration or the deletion succeeds, or the store held nothing or already the same value |
| `CopilotRuns.LostWriteDisagrees` | extensions/copilot/harness.ts:211-234 | A concrete run in which a lost registration and a lost deletion leave the two disagreeing |
| `CopilotRuns.AbortedCompactionIsFinal` | extensions/copilot/harness.ts:654-680 | After a compaction settles as aborted or deadline, no later run in which no attempt writes its SDK session resumes it, if and only if the deletion succeeds or the store did not name it |
| `CopilotRuns.AbortedSettleNamesIff` | extensions/copilot/harness.ts:654-680 | After such a settling step the SDK session is not live, and is stored if and only if the store named it and the deletion failed |
| `CopilotRuns.StoredCanBeResumed` | extensions/copilot/harness.ts:490-568 | What the store still names is resumed by some later run in which no attempt writes it |
| `CopilotRuns.UnnamedIsNeverResumed` | extensions/copilot/harness.ts:490-568 | What neither the live map nor the store names is resumed by no later run in which no attempt writes it |
| `CopilotRuns.ResetEndUnnames` | extensions/copilot/harness.ts:813-836 | The final step leaves a binding naming an SDK session that no attempt wrote since the capture if and only if it does not release it; where the first lookup or its deletion went through, if and only if the store still names it and the final deletion fails |
| `CopilotRuns.ResetEndNamesIff` | extensions/copilot/harness.ts:819-836 | In any state: what the final step leaves in the store and in the live map, for every SDK session and every outcome of its lookup and deletion |
| `CopilotRuns.ResetIsFinal` | extensions/copilot/harness.ts:800-836 | An SDK session that no attempt writes after the capture is resumed by no later run if and only if the final step releases it; where the first lookup or its deletion went through, if and only if the final deletion succeeds or the store did not name it |
| `CopilotRuns.ResetEndRemovesIff` | extensions/copilot/harness.ts:819-836 | The final step touches the captured session only; its live binding goes if and only if it still has the captured SDK id, its stored one if and only if the deletion succeeds and either the lookup failed or the store still names the captured id |
| `CopilotRuns.FailedLookupDropsReplacement` | extensions/copilot/harness.ts:199-209 | In any state over a durable store: a replacement with another SDK id is deleted from the store when the lookup of the final step fails |
| `CopilotRuns.FailedResetResumes` | extensions/copilot/harness.ts:819-836 | When the lookup and the deletion of the final step both fail, the captured session is resumed at once |
| `CopilotRuns.ResetDropsSameIdReplacement` | extensions/copilot/harness.ts:810-836 | In any state over a durable store, a replacement with the same SDK id established between the two steps of a reset is gone from the live map and the store after them |
| `CopilotRuns.SameIdBindings` | extensions/copilot/harness.ts:611-636 | Two such bindings: one SDK session under two compat keys |
| `CopilotRuns.FailedResetStaysBlocked` | extensions/copilot/harness.ts:823-829 | Where the final step cannot delete the binding it owns, the session stays blocked and resumes nothing |
| `CopilotRuns.WrittenReadsBackIff` | extensions/copilot/harness.ts:138-197 | What is stored beside a live binding reads back as that binding if and only if its fields are filled and its SDK id is trimmed |
| `CopilotRuns.NormalizeIdempotent` | extensions/copilot/harness.ts:138-173 | Normalising an accepted binding again changes nothing |
| `CopilotRuns.RestartResumes` | extensions/copilot/harness.ts:553-568 | A new harness over the same store resumes the session that an earlier one established |
| `CopilotResumes.LiveIsResumedIff` | extensions/copilot/harness.ts:490-568 | A live session that is not blocked and whose SDK session no compaction owns is resumed with its own SDK id, key and journal flag if and only if the compat keys are equal, whatever the store operations do |
| `CopilotResumes.StoredIsResumedIff` | extensions/copilot/harness.ts:490-568 | The same for a session that only the store holds, where the lookups succeed: resumed with the trimmed SDK id, its key and its journal flag if and only if the entry is readable and the keys are equal |
| `CopilotResumes.ReadableIff` | extensions/copilot/harness.ts:138-197 | An entry reads as a binding exactly when its fields hold some text that is no white space, its journal version is absent or 1 and its profile is named where the login is not the user's; or it is of the older schema and holds text |
| `CopilotResumes.EstablishedIsResumed` | extensions/copilot/harness.ts:553-636 | After an attempt established its SDK session, and any steps that neither write, block nor drop the session, the next attempt resumes it if and only if it asks with the same key |
| `CopilotResumes.UntouchedRun` | extensions/copilot/harness.ts:459-1000 | Steps that do not touch a session leave it as resumable as it was |
| `CopilotResumes.DisposedResumesFromStore` | extensions/copilot/harness.ts:1080-1081 | After disposal nothing is live or blocked: a stored session is resumed if and only if its entry is readable and the keys are equal |
| `CopilotResumes.CompletedAttemptIsResumed` | extensions/copilot/harness.ts:690-716 | A completed attempt of the live SDK session sets the journal flag that the next attempt learns; one of another SDK session changes nothing |
| `CopilotResumes.CompletedCompactionIsResumed` | extensions/copilot/harness.ts:654-688 | When a compaction of a live session that no other compaction owns settles as completed and its entry is gone, the session is resumed again with its key |
| `CopilotResumes.UnownedCompactionChangesNothing` | extensions/copilot/harness.ts:654-680 | A compaction whose SDK session no binding names is refused, or settles without changing a binding or a block, whatever its outcome, where the lookup succeeds |
| `CopilotResumes.ResetEndBlocksIff` | extensions/copilot/harness.ts:819-836 | After the final step of a reset its session is blocked exactly if it was, the lookup succeeded and the deletion of a binding that the reset owns failed; no other block changes |
| `CopilotResumes.StaleIsDropped` | extensions/copilot/harness.ts:985-1003 | A stale manual compaction drops the live binding with its SDK id, and the stored one if the deletion succeeds; any other id changes nothing |
| `CopilotHarness.Harness.constructor` | extensions/copilot/harness.ts:419-433 | A harness starts with empty tables over the store it is given, live map and store in agreement |
| `CopilotHarness.Harness.DeleteStoredBinding` | extensions/copilot/harness.ts:223-234 | The store loses the key exactly when the deletion succeeds, and the result says which |
| `CopilotHarness.Harness.LookupStoredBinding` | extensions/copilot/harness.ts:199-209 | A binding is returned only if the store names it and then nothing changes; a failing lookup deletes; the agreement is kept |
| `CopilotHarness.Harness.RegisterStoredBinding` | extensions/copilot/harness.ts:211-221 | The new state is that of the registration step; a failing registration deletes |
| `CopilotHarness.Harness.HasPendingDeferredCompactionCleanup` | extensions/copilot/harness.ts:490-502 | Whether a compaction owns the SDK session that the live map, or else the store, names; the agreement is kept |
| `CopilotHarness.Harness.ResolveResume` | extensions/copilot/harness.ts:553-568 | A live session that is not blocked and under no compaction of its SDK session is returned exactly if the keys are equal, and nothing changes; a binding that is returned was named by the live map or the store, has the asked compat key, is of a session that is not blocked and, unless the first lookup and its deletion failed, is under no unsettled compaction |
| `CopilotHarness.Harness.OnSessionEstablished` | extensions/copilot/harness.ts:611-636 | The session is live and unblocked afterwards; the agreement is kept unless both store writes fail |
| `CopilotHarness.Harness.OnDeferredCompaction` | extensions/copilot/harness.ts:637-688 | The compaction is pending if and only if a binding named its SDK session, and then the session is blocked; the agreement is kept |
| `CopilotHarness.Harness.SettleDeferredCompaction` | extensions/copilot/harness.ts:654-680 | After an aborted or expired compaction a binding names its SDK session if and only if the store did and the deletion failed; the agreement is kept for every outcome |
| `CopilotHarness.Harness.RemoveDeferredCompactionCleanup` | extensions/copilot/harness.ts:476-488 | The table entry, and nothing else, is removed, so it blocks nothing any more |
| `CopilotHarness.Harness.CompleteAttempt` | extensions/copilot/harness.ts:690-716 | No live binding appears, goes or changes its SDK id; the agreement is kept unless both store writes fail |
| `CopilotHarness.Harness.BeginReset` | extensions/copilot/harness.ts:813-817 | The session is blocked, the live map is untouched and both bindings are captured; the agreement is kept |
| `CopilotHarness.Harness.FinishReset` | extensions/copilot/harness.ts:819-836 | The captured live id is not live; the store names an SDK session afterwards if and only if the step does not release it; a stored binding goes if and only if the deletion succeeds and either the lookup failed or the store still named the captured id; the agreement is kept |
| `CopilotHarness.Harness.DropStaleBinding` | extensions/copilot/harness.ts:991-1000 | The stale SDK session is not live afterwards; the agreement is kept |
| `AcpxRuns.SlotHoldsOnlyTheOwnedRuntime` | extensions/acpx/register.runtime.ts:38-246 | In every reachable state a runtime of this service in the registry slot is its owned runtime, of the current revision, and the service is published and has a context |
| `AcpxRuns.StoppedRuntimesNeverReturn` | extensions/acpx/register.runtime.ts:215-244 | Once stop begins, no runtime of the closed or an earlier revision is in the slot in any later state |
| `AcpxRuns.ForeignBackendNeverUnregistered` | extensions/acpx/register.runtime.ts:38-42 | If a foreign backend leaves the slot empty, a foreign plugin did it |
| `AcpxRuns.AtMostOneStartInFlight` | extensions/acpx/register.runtime.ts:44-122 | Any two inner starts in flight in a reachable state are the same one |
| `AcpxRuns.CallersShareTheRuntime` | extensions/acpx/register.runtime.ts:153-172 | Callers that obtain a runtime within one revision obtain the same one |
| `AcpxRuns.LateFailureClearsOnlyItself` | extensions/acpx/register.runtime.ts:113-122 | A failing start that clears the shared promise or service clears its own; those of another revision are untouched |
| `AcpxRuns.StepKeepsInv` | extensions/acpx/register.runtime.ts:44-246 | Every stretch between awaits, including waits that a failed stop rejects, and every foreign write keeps the invariant of the service and the slot |
| `AcpxRuns.RunKeepsInv` | extensions/acpx/register.runtime.ts:44-246 | The invariant holds after every disciplined run, and the revision never falls |
| `AcpxRuns.OverlappingStopsBreakUniqueness` | extensions/acpx/register.runtime.ts:151-244 | A run in which a start call that waited on a stop brings about a second stop before a getRuntime call that also waited goes on: two inner starts end up in flight |
| `AcpxRuns.OverlappingStopsBreakTheSlot` | extensions/acpx/register.runtime.ts:173-244 | The same with two start calls: the slot ends up with a runtime of this service that the service no longer owns |
| `AcpxRuns.InvMeansOneInFlight` | extensions/acpx/register.runtime.ts:44-122 | The invariant allows at most one inner start in flight |
| `AcpxScenarios.CallerObtainsIff` | extensions/acpx/register.runtime.ts:42-172 | On an idle service a caller whose start loads, publishes and returns obtains exactly the published runtime, which is then owned and, if published, registered, if and only if the inner start returns normally and no plugin holds the slot, whatever other callers join in between |
| `AcpxScenarios.FailedLoadIsForgotten` | extensions/acpx/register.runtime.ts:56-121 | When the module does not load the caller obtains nothing; once the failure is caught nothing is left of the start and the next call begins a new one |
| `AcpxScenarios.FailedStartIsForgotten` | extensions/acpx/register.runtime.ts:99-121 | The same when the inner start fails or a plugin took the slot |
| `AcpxScenarios.StartRegistersLazily` | extensions/acpx/register.runtime.ts:203-213 | On a closed service start registers the deferred runtime of a new revision and begins no start |
| `AcpxScenarios.ProxyBegins` | extensions/acpx/register.runtime.ts:124-132 | A call through the deferred runtime begins a start exactly as getRuntime would |
| `AcpxScenarios.StartPromotes` | extensions/acpx/register.runtime.ts:182-202 | On an open service that nothing disturbs start registers the owned runtime if the inner promotion succeeds |
| `AcpxScenarios.PromotionAwaitsStart` | extensions/acpx/register.runtime.ts:195-196 | A promotion waits for the start that was under way, and comes to nothing if that was rejected |
| `AcpxScenarios.WaitersFollowTheStop` | extensions/acpx/register.runtime.ts:154-156 | Calls that wait on a stop go on exactly if the inner stop went through, and throw otherwise |
| `AcpxScenarios.WaiterBegins` | extensions/acpx/register.runtime.ts:153-172 | A call that waited on a stop begins a start when it goes on |
| `AcpxScenarios.StopCloses` | extensions/acpx/register.runtime.ts:215-244 | A whole stop leaves a closed and idle service, its runtimes withdrawn and a foreign slot untouched |
| `AcpxScenarios.RetractWithdraws` | extensions/acpx/register.runtime.ts:93-95 | Exactly the retracted runtime leaves the slot |
| `AcpxService.Registry.UnregisterOwned` | extensions/acpx/register.runtime.ts:38-42 | The slot is cleared exactly when it holds the given runtime |
| `AcpxService.Service.constructor` | extensions/acpx/register.runtime.ts:135-149 | A service starts in the initial state, with the invariant, over a slot that a foreign plugin may already hold |
| `AcpxService.Service.StartRealService` | extensions/acpx/register.runtime.ts:44-58 | Rejects a stale revision, joins the start in flight or creates one |
| `AcpxService.Service.OnGetRuntime` | extensions/acpx/register.runtime.ts:153-172 | A getRuntime call waits, or opens the service and joins or begins a start; afterwards the slot holds no runtime of this service but the owned one and one start is in flight at most |
| `AcpxService.Service.OnStart` | extensions/acpx/register.runtime.ts:173-214 | A start call waits, begins a promotion, or opens the service with its deferred runtime in the slot; slot and start properties kept |
| `AcpxService.Service.OnWake` | extensions/acpx/register.runtime.ts:153-183 | A call goes on after a stop that went through; slot and start properties kept |
| `AcpxService.Service.OnWaitRejected` | extensions/acpx/register.runtime.ts:153-180 | A call that waited on a stop whose inner stop rejected throws and changes nothing else; slot and start properties kept |
| `AcpxService.Service.OnProxyCall` | extensions/acpx/register.runtime.ts:124-132 | A deferred proxy of another revision changes nothing; slot and start properties kept |
| `AcpxService.Service.OnLoad` | extensions/acpx/register.runtime.ts:58-98 | The service is set once the module has loaded, or the start rejects; slot and start properties kept |
| `AcpxService.Service.OnPublish` | extensions/acpx/register.runtime.ts:74-92 | A start of another revision publishes nothing, and nothing is registered where no runtime of this service stood; slot and start properties kept |
| `AcpxService.Service.OnRetract` | extensions/acpx/register.runtime.ts:93-95 | Only the retracted runtime leaves the slot; slot and start properties kept |
| `AcpxService.Service.OnInnerStartReturned` | extensions/acpx/register.runtime.ts:99-111 | The start resolves with the runtime it published exactly if the inner start returned normally, revision and context are still current, something was published and, while published, the slot still holds it; otherwise it rejects |
| `AcpxService.Service.OnStartRejected` | extensions/acpx/register.runtime.ts:113-121 | Only the failing start's own promise is cleared; slot and start properties kept |
| `AcpxService.Service.OnStop` | extensions/acpx/register.runtime.ts:215-229 | When stop begins the revision grows, the service is closed and no runtime of this service is registered; under the discipline on stop, slot and start properties kept |
| `AcpxService.Service.OnServiceStopped` | extensions/acpx/register.runtime.ts:230-237 | After the inner stop, rejected or not, no runtime of this service is registered and no start is shared; slot and start properties kept |
| `AcpxService.Service.OnPromotionAwaited` | extensions/acpx/register.runtime.ts:195-197 | A rejected start or lost ownership ends the promotion; slot and start properties kept |
| `AcpxService.Service.OnPromoted` | extensions/acpx/register.runtime.ts:197-201 | The slot changes only for a promotion of the current revision, to the owned runtime; slot and start properties kept |
| `BedrockRuns.DoneStreamsAreBracketed` | extensions/amazon-bedrock/stream.runtime.ts:273-366 | For every indexed item sequence that ends in done, the events of each content index are one start, deltas of its kind and one end in this order, the end's content is the concatenation of the deltas unless redacted, and no event names a missing block |
| `BedrockRuns.ToolCallsEndTogether` | extensions/amazon-bedrock/stream.runtime.ts:350-366 | A stream that ends in done ends every tool block exactly once, after all other events, with the arguments that the finalisation of the whole set gave, and that set was made of the concatenated deltas of every tool block, or its document where they were empty |
| `BedrockRuns.FailedStreamsKeepNoToolCall` | extensions/amazon-bedrock/stream.runtime.ts:367-387 | Whatever was received, a failing stream has emitted no toolcall_end and keeps no tool call and no scratch index |
| `BedrockRuns.DoneMessagesAreClean` | extensions/amazon-bedrock/stream.runtime.ts:350-366 | No block of a finished message keeps its index or partial JSON |
| `BedrockRuns.StopHitsItsBlock` | extensions/amazon-bedrock/stream.runtime.ts:648-694 | Because no earlier open block shares its provider index, stopping an open text or thinking block stops that very block |
| `BedrockRuns.ReceiveKeeps` | extensions/amazon-bedrock/stream.runtime.ts:273-337 | Every provider item keeps the invariant that ties blocks, pending ends and emitted events |
| `BedrockRuns.WholeIffToolsIndexed` | extensions/amazon-bedrock/stream.runtime.ts:350-366 | Where deltas and stops carry an index and the stream ends in done: no block keeps a scratch field and every tool call was ended exactly once if and only if every announced tool call carries an index |
| `BedrockRuns.ToolEndsComeLast` | extensions/amazon-bedrock/stream.runtime.ts:350-366 | In any stream that ends in done, with or without indexes: after all other events, one end event for each queued stop, carrying the arguments that the finalisation of exactly the queued blocks gave, and no tool block is left open |
| `BedrockRuns.FailedStreamsAreBracketed` | extensions/amazon-bedrock/stream.runtime.ts:367-387 | The events of a failing stream that did not hold them back are, for each content index, one start, deltas of its kind and at most one end, and its content is what survives of those blocks |
| `BedrockRuns.UnindexedToolCallLeaks` | extensions/amazon-bedrock/stream.runtime.ts:510-534 | A tool call announced without an index and never stopped: the finished message keeps its scratch buffer and no end was emitted |
| `BedrockRuns.UnindexedStopEnds` | extensions/amazon-bedrock/stream.runtime.ts:648-694 | A stop without an index does find a tool call announced without one, and ends it |
| `BedrockHeard.DoneIsHeard` | extensions/amazon-bedrock/stream.runtime.ts:510-719 | A stream of indexed items ends in done exactly when no item throws, its last message stop is no failure, it was not aborted, every started tool call was stopped and the JSON told to them can be finalised; then the message has one block for each opening item in order, whose text, reasoning, signature and redaction are those of the items with its index from the opening to its stop, tool calls have the announced id and name and the arguments finalised from their own JSON, and the last events end them in the order of their stops |
| `BedrockHeard.FailedIsHeard` | extensions/amazon-bedrock/stream.runtime.ts:367-387 | A stream that fails keeps exactly the text and the reasoning told before the failure, or nothing and no event where events are held back |
| `BedrockHeard.FollowAll` | extensions/amazon-bedrock/stream.runtime.ts:510-694 | After any received prefix every block is what the items told it, open blocks of one index queue in the order of their openings, and stopped tool calls are queued in the order of their stops |
| `BedrockHeard.LinkDelta` | extensions/amazon-bedrock/stream.runtime.ts:536-614 | A delta opens a block if it tells something and nothing with its index is open, else it is heard by the block in front |
| `BedrockHeard.LinkStop` | extensions/amazon-bedrock/stream.runtime.ts:648-694 | A stop ends the block in front of its index and seals redacted reasoning |
| `BedrockMachine.Machine.constructor` | extensions/amazon-bedrock/stream.runtime.ts:156-166 | A machine starts with no blocks, no pending ends and no events |
| `BedrockMachine.Machine.OnContentBlockStart` | extensions/amazon-bedrock/stream.runtime.ts:510-534 | The new state is that of the start handler |
| `BedrockMachine.Machine.OnContentBlockDelta` | extensions/amazon-bedrock/stream.runtime.ts:536-614 | The in-place handler takes the step whose effect on the message `BedrockHeard.DoneIsHeard` states over the received items: a delta opens a block where none carries its index, and otherwise appends to the first that does |
| `BedrockMachine.Machine.OnContentBlockStop` | extensions/amazon-bedrock/stream.runtime.ts:648-694 | The new state is that of the stop handler |
| `BedrockMachine.Machine.CloseOpenBlocks` | extensions/amazon-bedrock/stream.runtime.ts:350-362 | The loop stops every text or thinking block left open, as the closing function says |
| `BedrockMachine.Machine.FlushPendingToolCalls` | extensions/amazon-bedrock/stream.runtime.ts:696-719 | All pending tool calls end with the finalised arguments, or nothing is emitted |
| `BedrockMachine.Machine.Process` | extensions/amazon-bedrock/stream.runtime.ts:273-387 | The event loop, the checks and the clean-up produce the content, events and verdict of the whole-stream function |
| `BedrockMachine.Machine.CleanUpFailure` | extensions/amazon-bedrock/stream.runtime.ts:373-386 | Tool calls and scratch fields are dropped; a buffering stream keeps nothing |
| `BedrockConvertProofs.CachePointPlacement` | extensions/amazon-bedrock/stream.runtime.ts:1109-1122 | For every transcript the cache point is the last block of the latest user message before every volatile carrier, occurs at most once, is present if and only if the last message is a user message and such an anchor exists, and erasing it gives the conversion without one |
| `BedrockConserved.ToolCallsConserved` | extensions/amazon-bedrock/stream.runtime.ts:974-1054 | Every tool call of the transcript is sent once, in order, with its id, name and arguments, by an assistant message, and no other |
| `BedrockConserved.TextsConserved` | extensions/amazon-bedrock/stream.runtime.ts:939-1101 | The texts sent are the sanitised texts of the transcript in order and under their role, without blank ones of the assistant, with reasoning that has no usable signature, and with one label for each tool result whose images are hoisted |
| `BedrockConserved.ReasoningConserved` | extensions/amazon-bedrock/stream.runtime.ts:994-1041 | Reasoning is sent back to Claude alone, with its signature or as its redacted bytes, in order |
| `BedrockConserved.ImagesConserved` | extensions/amazon-bedrock/stream.runtime.ts:939-1101 | No image of a user message or a tool result is lost, added or moved, whether or not images are hoisted |
| `BedrockConserved.ResultTextsConserved` | extensions/amazon-bedrock/stream.runtime.ts:1055-1103 | Each tool result says the sanitised texts of its message with its id and status, or a placeholder where it shows nothing, and refers to its hoisted images |
| `BedrockConserved.ThrowsIff` | extensions/amazon-bedrock/stream.runtime.ts:927-1123 | The conversion throws if and only if a message holds an unreadable image that is shown, or redacted reasoning for Claude whose signature is missing or malformed |
| `BedrockConserved.TransientAreCarriers` | extensions/amazon-bedrock/stream.runtime.ts:958-967 | The messages behind which nothing is cached are exactly the carriers of runtime context with content, unless the model binds its thinking to the prefix |
| `BedrockConvertProofs.ConvertedMessagesNonEmpty` | extensions/amazon-bedrock/stream.runtime.ts:927-1053 | Every converted message has content, with or without a cache point |
| `BedrockConvertProofs.ToolResultsConserved` | extensions/amazon-bedrock/stream.runtime.ts:1055-1103 | The tool results of the conversion, with or without a cache point, answer exactly the tool-result messages, in order, none lost or repeated |
| `BedrockConvertProofs.RunShape` | extensions/amazon-bedrock/stream.runtime.ts:1055-1103 | A run of tool results becomes one user message: one result per message in order, with its id and status and (without hoisting) unchanged, then no further tool result |
| `BedrockConvertProofs.HoistingIsExact` | extensions/amazon-bedrock/stream.runtime.ts:1071-1097 | Under the hoisting model no tool result holds an image, each keeps its other parts in order, results precede hoisted blocks, and the hoisted images are the originals in order |
| `BedrockConvertProofs.RunImagesHoisted` | extensions/amazon-bedrock/stream.runtime.ts:1055-1103 | Under the hoisting model the message of a run carries, behind its tool results, exactly the images that the messages of the run show, in order, and none inside them |
| `BedrockConvertProofs.ResultKeepsImages` | extensions/amazon-bedrock/stream.runtime.ts:903-913 | A tool result holds exactly the converted images of its message that have a placeholder, in order |
| `BedrockConvertProofs.ResultKeepsTexts` | extensions/amazon-bedrock/stream.runtime.ts:903-913 | A tool result shows every text of its message, sanitised and in order |
| `BedrockConvert.CreateToolResult` | extensions/amazon-bedrock/stream.runtime.ts:903-925 | A tool result carries the call id and is never empty |
| `BedrockConvert.SegmentsPartition` | extensions/amazon-bedrock/stream.runtime.ts:936-1069 | The index-jumping loop cuts the transcript into single messages and maximal runs of tool results that concatenate to it |
| `BedrockConvertProofs.ConvertMessages` | extensions/amazon-bedrock/stream.runtime.ts:927-1123 | The loop computes the conversion, segment by segment |
| `BedrockConvertProofs.ConvertNext` | extensions/amazon-bedrock/stream.runtime.ts:936-1107 | One turn of the loop converts one message or one whole run and jumps behind it |
| `BedrockConvertProofs.CollectRun` | extensions/amazon-bedrock/stream.runtime.ts:1058-1069 | The inner loop collects the maximal run of tool results that starts at an index |
| `BedrockConvertProofs.ConvertOne` | extensions/amazon-bedrock/stream.runtime.ts:940-1054 | One user or assistant message becomes the tagged message of the conversion, or none, or the error |
| `BedrockConvertProofs.AddRun` | extensions/amazon-bedrock/stream.runtime.ts:1071-1101 | A run becomes the one tagged user message of the conversion |
| `BedrockConvertProofs.HoistImages` | extensions/amazon-bedrock/stream.runtime.ts:1073-1097 | The images are moved behind the results with their labels |
| `BedrockConvertProofs.AddCachePoint` | extensions/amazon-bedrock/stream.runtime.ts:1111-1120 | The search from the end marks the latest eligible user message, or leaves the messages alone |
| `GoogleSse.ParseGoogleSseChunks` | extensions/google/transport-stream.ts:894-981 | For every cutting of the decoded text into reads, the chunks and the verdict are those of reading the whole text line by line as section 9.2.5 of the WHATWG HTML Living Standard describes |
| `GoogleSseStreams.StreamMeans` | extensions/google/transport-stream.ts:915-971 | For any stream of events of data and other lines, under any of the three line terminators, and any tail: the chunks of its messages in order up to the first that is none, which decides the verdict; where all are chunks the tail does, as a provider error, an incomplete frame or a good end |
| `GoogleSseStreams.StreamIsRead` | extensions/google/transport-stream.ts:941-953 | The payloads that are read are the joined data lines of each event, apart from empty ones and [DONE] |
| `GoogleSseStreams.TailIsRead` | extensions/google/transport-stream.ts:915-922 | Lines that no blank line follows dispatch nothing and are left as data and bare text |
| `GoogleSse.ParseTwice` | extensions/google/transport-stream.ts:894-981 | Any two cuttings of the same text, a single read among them, give the same chunks and the same verdict |
| `GoogleSse.ExtractEvent` | extensions/google/transport-stream.ts:941-950 | Removing the first event of a buffer commutes with the text still to come, including a CR whose LF is in the next read |
| `GoogleSse.Remainder` | extensions/google/transport-stream.ts:915-926 | A buffer without an event boundary dispatches nothing; what is left is its data lines and its trimmed text |
| `GoogleSse.FindBoundary` | extensions/google/transport-stream.ts:118-118 | The boundary found is the leftmost match of two line terminators, and none is found only where there is none |
| `GoogleSse.DrainBuffer` | extensions/google/transport-stream.ts:941-972 | The loop yields the chunks of every complete event, or the failure that the reference meets first |
| `GoogleSse.ReadTrailing` | extensions/google/transport-stream.ts:915-937 | The verdict on what is left at the end of the stream, with an undelimited provider error reported as such |
| `GoogleSse.WriteThenDispatch` | extensions/google/transport-stream.ts:941-950 | Payloads written as events read back as the same payloads with nothing left over |
| `GoogleVideoRequest.Request.Materialize` | extensions/google/transport-stream.ts:485-518 | After the walk of any acyclic request every reachable video part is a trusted slot; every reached slot of a native type is trusted and its only field inlineData is an object of exactly its MIME type and its data, any other slot is the MIME omission text; other objects change only into the slot omission text and only if they were untrusted video; the trusted list is the slots of the resulting tree in reading order |
| `GoogleVideoRequest.Request.constructor` | extensions/google/transport-stream.ts:485-489 | A walk starts with nothing trusted |
| `GoogleVideoRequest.Request.Visit` | extensions/google/transport-stream.ts:490-515 | Visiting a value finishes all it references, keeps the invariant, touches only objects below it, and appends its slots in reading order |
| `GoogleVideoRequest.Request.VisitObject` | extensions/google/transport-stream.ts:498-514 | A slot becomes its video or the omission, an untrusted video part becomes text, anything else is entered |
| `GoogleVideoRequest.Request.Omit` | extensions/google/transport-stream.ts:480-483 | The object holds nothing but the text, and nothing else changes |
| `GoogleVideoRequest.Request.Fill` | extensions/google/transport-stream.ts:505-508 | The slot's only field is inlineData, a new object of its MIME type and its data; it is trusted and no other object changes |
| `GoogleVideoRequest.Request.Serialize` | extensions/google/transport-stream.ts:520-538 | The request is left with the shortest sufficient suffix of trusted slots shed, and the JSON of what is left is returned exactly if it is below 20000000 bytes |
| `GoogleVideoRequest.Request.SerializeTwice` | extensions/google/transport-stream.ts:520-538 | Serialising again gives the same body; every reachable video belongs to a slot that was not shed, for which its MIME type and data are sent, while the omission text is sent for every shed one; when all were shed the JSON tree holds no video |
| `GoogleVideoRequest.SettledIsSent` | extensions/google/transport-stream.ts:505-538 | The JSON of each trusted slot after serialisation: the object of MIME type and data, or the omission text for the shed ones |
| `GoogleVideoRequest.ShedsTheShortestSuffix` | extensions/google/transport-stream.ts:525-537 | If shedding the last k slots makes the body fit, serialisation succeeds and sheds at most k |
| `GoogleVideoRequest.SheddingIsLeast` | extensions/google/transport-stream.ts:525-531 | The number shed makes the body fit unless it is all of them, and no smaller number does |
| `GoogleVideoRequest.SettlingTwice` | extensions/google/transport-stream.ts:520-538 | Serialising a serialised request, successful or not, changes nothing |
| `GoogleVideoRequest.ShedStaysClean` | extensions/google/transport-stream.ts:525-530 | After shedding a suffix only the remaining trusted slots carry video |
| `GoogleVideoRequest.VideoFromTheStart` | extensions/google/transport-stream.ts:510-513 | The walk makes no untrusted part a video part: what is omitted was video in the original request |
| `GoogleVideoRequest.ReadingStable` | extensions/google/transport-stream.ts:490-515 | What was visited reads the same, slots included, after any later step of the walk |
| `GoogleVideo.CleanTreeHasNoVideo` | extensions/google/transport-stream.ts:520-524 | Where nothing is trusted any more, the JSON tree that is sent holds no video object |
| `GoogleVideo.SlotIsSent` | extensions/google/transport-stream.ts:505-505 | The JSON of a filled slot: inlineData with its MIME type and its data, in this order |
| `GoogleVideo.ClosedHoldsReachable` | extensions/google/transport-stream.ts:490-515 | Whatever can be reached from a finished set of objects is in it |
| `NativeLiteral.ReadsBackIff` | scripts/native-app-i18n.ts:468-521 | For both surfaces, the printing of any mix of escaped and raw text, unknown escapes and balanced interpolations reads back as the decoded text with interpolations and unknown escapes verbatim, ending just past the closing quote, if and only if it is not an empty literal followed by a quote |
| `NativeLiteral.CloseIffGroup` | scripts/native-app-i18n.ts:413-449 | From an opening delimiter, the scanner stops at k if and only if the text up to k is a balanced group, with quoted strings and escapes inside |
| `NativeLiteral.CloseEndsGroup` | scripts/native-app-i18n.ts:413-449 | The closing delimiter of a balanced group is its last character, whatever follows |
| `NativeLiteral.AdjacentReadBack` | scripts/native-app-i18n.ts:523-549 | Literals joined by plus signs and white space read back as the concatenation, with the number of fragments |
| `NativeLiteral.RuntimeConcatenationRejected` | scripts/native-app-i18n.ts:535-545 | A concatenation that goes on with anything but a literal rejects the whole expression, however many literals precede |
| `NativeLiteral.FindClosingDelimiter` | scripts/native-app-i18n.ts:413-449 | The loop finds the delimiter that the scanner function finds |
| `NativeLiteral.ReadNativeStringLiteral` | scripts/native-app-i18n.ts:468-521 | The loop reads the literal that the reader function reads, or fails where it does |
| `NativeLiteral.ReadAdjacentStringLiterals` | scripts/native-app-i18n.ts:523-549 | The loop reads all adjacent literals, or rejects the whole expression |
| `NativeLiteral.MultilineReadsBackIff` | scripts/native-app-i18n.ts:451-466 | Lines laid out at any indentation between triple quotes read back as those lines, ending behind the quotes, if and only if no triple quote starts inside |
| `NativeMultiline.DecodeUndoesLayout` | scripts/native-app-i18n.ts:573-595 | Decoding a layout drops the outer blank lines, removes exactly the added indentation and joins the lines |
| `NativeMultiline.JoinLinesPlain` | scripts/native-app-i18n.ts:584-594 | Lines that do not end in an odd number of backslashes are joined by line feeds alone |
| `NativeMultiline.LineRunsOn` | scripts/native-app-i18n.ts:586-594 | A line runs on into the next, without its last backslash, exactly if it ends in an odd number of them |
| `NativeMultiline.LineEndsDecodeAlike` | scripts/native-app-i18n.ts:574-574 | Two-character line ends decode as single ones |
| `NativeLiteral.IndexOfTripleIsFirst` | scripts/native-app-i18n.ts:458-458 | The triple quote that is found is the first one, and none is found only where there is none |
| `NativeLiteral.ReadMultiline` | scripts/native-app-i18n.ts:451-466 | A triple-quoted literal that is read ends behind the first triple quote after its opening one |
| `NativeInventory.CanonicalIff` | scripts/native-app-i18n.ts:1137-1176 | Every shuffle of the candidates gives the same inventory apart from contexts if and only if no two different sites of one string share a site key |
| `NativeInventory.InventoryIsCanonical` | scripts/native-app-i18n.ts:1141-1176 | The inventory, contexts aside, depends only on which strings occur at which sites |
| `NativeInventory.InventoryDescribes` | scripts/native-app-i18n.ts:1137-1176 | Every entry has the id made of its surface and the hash of surface and source, sites that are paths and kinds of candidates with its string, and no twin; every candidate has an entry, which lists its site where joined paths and kinds tell the sites of that string apart |
| `NativeInventory.EntriesListed` | scripts/native-app-i18n.ts:1151-1176 | There is exactly one entry for each distinct surface and source, in strictly ascending order |
| `NativeInventory.SitesListed` | scripts/native-app-i18n.ts:1153-1161 | The sites of an entry are strictly ascending and are those of the last candidate of each site key |
| `NativeInventory.AllSitesListedIff` | scripts/native-app-i18n.ts:1148-1161 | Every candidate's site is listed if and only if no two sites share a key |
| `NativeInventory.NoNulNoCollision` | scripts/native-app-i18n.ts:1148-1148 | Paths without a NUL never share a site key |
| `NativeInventory.NulPathsHideSites` | scripts/native-app-i18n.ts:1148-1148 | Two candidates with a NUL in a path or kind whose order changes the inventory |
| `NativeInventory.ContextOfEntry` | scripts/native-app-i18n.ts:1162-1168 | The context is that of the last candidate at the least site |
| `NativeInventory.IdentityInjective` | scripts/native-app-i18n.ts:1137-1139 | Identities are equal only for the same surface and source |
| `NativeInventory.AssignNativeI18nIds` | scripts/native-app-i18n.ts:1141-1176 | The loop that fills the maps, and the sorts, give the inventory |
| `ClaudeRestriction.DenialsKeptIff` | extensions/anthropic/cli-shared.ts:374-428 | Scanning the restricted command line finds exactly the denials scanned from the original, trimmed and not empty, with the MCP wildcard where no OpenClaw tool is allowed, if and only if the least denial does not start with a dash; where a native tool list itself reads as a denial pair, if and only if it adds no new one; where both happen, if and only if the two readings together give the list; `ClaudeReading.RestrictedDeniesIff` states it over the arguments themselves |
| `ClaudeReading.RestrictedDeniesIff` | extensions/anthropic/cli-shared.ts:374-428 | Read position by position, the restricted command line denies exactly what the original denies, and the MCP wildcard where no OpenClaw tool is allowed, if and only if the least of it does not start with a dash, for every tool list that does not itself read as denials |
| `ClaudeReading.RestrictedDenials` | extensions/anthropic/cli-shared.ts:374-428 | The same for all inputs: what else is denied, or lost, where the tool list reads as denials or the least denial starts with a dash |
| `ClaudeReading.ScanReads` | extensions/anthropic/cli-shared.ts:378-393 | The scan reads an entry if and only if it stands between commas in a value behind a denial flag with no argument that starts with a dash in between, or behind the equals sign of one |
| `ClaudeReading.SplitEntries` | extensions/anthropic/cli-shared.ts:384-390 | The entries of a list are what stands between its commas |
| `ClaudeReading.StripIsSurvivors` | extensions/anthropic/cli-shared.ts:315-351 | Stripping keeps exactly the arguments that neither have a named option's name nor are values taken by one, judged by position |
| `ClaudeReading.RestrictedArguments` | extensions/anthropic/cli-shared.ts:393-427 | The restricted command line is what survives, the fixed arguments spelled out, the allowed OpenClaw tools and the denials |
| `ClaudeRestriction.RestrictTwiceIff` | extensions/anthropic/cli-shared.ts:374-428 | For all inputs, restricting twice equals restricting once if and only if the tool list and the denial list are stripped again and the denials survive; with a tool list that is no denial pair, if and only if it is stripped again and the least denial does not start with a dash |
| `ClaudeRestriction.DashedDenialIsLost` | extensions/anthropic/cli-shared.ts:374-428 | Denying only -x: the denial is lost on a second restriction |
| `ClaudeRestriction.StripAdded` | extensions/anthropic/cli-shared.ts:315-351 | Stripping removes everything that restricting adds except a tool or denial list that looks like an option the policy does not name |
| `ClaudeRestriction.ScanOfRestricted` | extensions/anthropic/cli-shared.ts:374-428 | For all inputs, what the scan of the restricted command line reads: the tool list, should it be a denial pair, then the denial arguments |
| `ClaudeRestriction.DashedToolIsKept` | extensions/anthropic/cli-shared.ts:374-428 | Allowing only a native tool -x: whatever the arguments, a second restriction changes the command line |
| `ClaudeArgs.DenialsListed` | extensions/anthropic/cli-shared.ts:418-424 | The denial list holds exactly what is to be denied, once each, in ascending order |
| `ClaudeArgs.StripKeepsUnnamed` | extensions/anthropic/cli-shared.ts:315-351 | Nothing that the policy names survives stripping |
| `ClaudeArgs.StripKept` | extensions/anthropic/cli-shared.ts:315-351 | Arguments that the policy does not name are kept in place and take nothing with them |
| `ClaudeArgs.UnnamedIsSilent` | extensions/anthropic/cli-shared.ts:378-393 | What stripping keeps gives no denial |
| `ClaudeArgs.StripClaudeArgs` | extensions/anthropic/cli-shared.ts:315-351 | The loop that skips ahead computes the stripped command line |
| `ClaudeArgs.ScanDenials` | extensions/anthropic/cli-shared.ts:378-393 | The loop that skips ahead collects the denials as written; which those are `ClaudeReading.ScanReads` states position by position |
| `ClaudeArgs.ResolveRestrictedExecutionArgs` | extensions/anthropic/cli-shared.ts:374-428 | The stripped arguments, the fixed ones and the denials, in this order |
| `ModulePreload.CollectsReachable` | ui/vite.config.ts:807-817 | On any finite graph, cyclic or not, exactly the modules reachable by one or more static imports are collected, each once |
| `ModulePreload.CollectStaticImports` | ui/vite.config.ts:807-817 | The array that grows while it is walked is exhausted, and the set is the worklist's result |
| `ModulePreload.PreloadsExactly` | ui/vite.config.ts:818-848 | For a script host the list has no duplicates, nothing that the host has loaded, every other wanted module except the target, and the target first if and only if it waits for styles and is not loaded |
| `ModulePreload.RequestedComeFirst` | ui/vite.config.ts:838-846 | Requested dependencies keep their order and precede those of the deep menu |
| `ModulePreload.RequestedInOrder` | ui/vite.config.ts:838-846 | Of two requested modules that are listed the one requested first comes first |
| `ModulePreload.ResolveModulePreloadDependencies` | ui/vite.config.ts:818-848 | The list for any host; a host that is not a script gets its dependencies unchanged |
| `Riff.StripFindsFirstData` | extensions/google/speech-synthesis.ts:181-199 | For every list of chunks with even padding, the payload of the first chunk whose name decodes as data, or the error when there is none |
| `Riff.FirstDataIsFirst` | extensions/google/speech-synthesis.ts:193-195 | For ASCII names that chunk is the first one named data |
| `Riff.StripUndoesWrap` | extensions/google/speech-synthesis.ts:138-199 | Stripping a wrapped PCM buffer of any representable length gives it back |
| `Riff.HeaderIsExact` | extensions/google/speech-synthesis.ts:138-158 | The 44 bytes in front of the PCM, byte by byte: names, sizes, one channel of 16 bits, sample rate and byte rate |
| `Riff.RepresentableIff` | extensions/google/speech-synthesis.ts:143-155 | A buffer can be wrapped exactly if its size with 36 bytes, the sample rate and twice the sample rate fit 32 bits |
| `Riff.WalkedOverChunks` | extensions/google/speech-synthesis.ts:188-198 | On arbitrary bytes, wherever PCM is found the bytes before it are well-formed chunks, none of them data, followed by a data header |
| `Riff.StripWavContainerToPcm` | extensions/google/speech-synthesis.ts:181-199 | The loop terminates on all bytes with reads in bounds and returns what the walk finds |
| `Riff.WrapPcm16MonoToWav` | extensions/google/speech-synthesis.ts:138-158 | For any sample rate, fractional or negative too, the header written field by field is a format chunk and a data header before the PCM, or a number that does not fit is a range error |
| `Riff.WriteFormat` | extensions/google/speech-synthesis.ts:148-153 | The fields of the format chunk are written behind what was there, or the sample rate does not fit |
| `Riff.WriteUInt32LE` | extensions/google/speech-synthesis.ts:143-155 | The integral part is written as four little-endian bytes behind what was there, exactly when the number fits |

## Left out

- HTTP, AWS, Copilot SDK and file-system calls, timers, logging and environment switches: step outcomes or parameters,
  or absent (`OPENCLAW_SKIP_ACPX_RUNTIME` is taken to be unset).
- JSON parsing and printing, text decoding, base64, surrogate sanitising, SHA-256 and UTF-8 length: parameters, with
  what the program relies on stated where they are used.
- Strings are sequences of characters; code units of surrogate pairs are not distinguished from characters.
- Copilot: client handles and session configurations of a live binding, the pool, isolated completions, the manual
  compaction itself (only its stale branch changes bindings) and the refusal of new work after disposal.
- Copilot: the cleanup table is one map keyed by cleanup, not a map per session; the final step of a reset is allowed
  before the cleanups it aborts have settled, which admits more runs than the program has.
- Copilot: `updatedAt` of a stored binding, and wrongly typed fields, which are one malformed value.
- ACPX: the inner service is reduced to when it publishes, retracts, starts, promotes and stops; the recovery check
  `assertCurrent` that it may call is not modelled.
- Bedrock: usage metadata and costs; a stop reason is reduced to whether it fails the stream; the schedule of argument
  previews is a choice carried by each delta.
- Bedrock: `transformMessages` runs before the conversion and is not part of it; model identity checks are flags of
  the model.
- BedrockRuns.DoneStreamsAreBracketed: asks that block events carry an index, because an event without one can match a
  block that is already closed.
- BedrockRuns.ToolCallsEndTogether: asks for the index; `WholeIffToolsIndexed` says exactly when tool starts may lack it,
  and `ToolEndsComeLast` what holds without any index.
- BedrockRuns.DoneMessagesAreClean: asks for the index; the exact condition is `WholeIffToolsIndexed`.
- BedrockRuns.WholeIffToolsIndexed: asks that deltas and stops carry an index, because a stop without one ends whichever
  closed or unindexed block comes first.
- BedrockHeard.DoneIsHeard: asks that block events carry an index, as `BedrockRuns.DoneStreamsAreBracketed` does.
- BedrockHeard.FailedIsHeard: asks for the index in the same way.
- AcpxRuns.SlotHoldsOnlyTheOwnedRuntime: speaks of disciplined runs only; `OverlappingStopsBreakTheSlot` breaks it
  otherwise.
- AcpxRuns.AtMostOneStartInFlight: speaks of disciplined runs only; `OverlappingStopsBreakUniqueness` breaks it
  otherwise.
- GoogleSse.ParseGoogleSseChunks: abort signals and cancelling the reader are not modelled, and an error record is
  assumed to print to one line that parses back.
- GoogleVideoRequest.Request.Materialize: arrays are values, so sharing of arrays is not seen.
- Google transport: the retry request is a clone with another thinking configuration; only serialising one request
  twice is modelled.
- Candidate extraction by regular expressions, locale translation and the command line of `scripts/native-app-i18n.ts`.
- Effort flags, side questions and backend normalisation of `extensions/anthropic/cli-shared.ts`.
- ModulePreload: the bundle hook that fills the maps, HTML rewriting, compression and the service worker.
- Riff.WrapPcm16MonoToWav: sample rates are real numbers; NaN and infinities are not modelled.
- Provider registration, catalogues, discovery and static model tables.
