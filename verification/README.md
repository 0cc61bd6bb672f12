# Verified model of the durable session ledger

SQLite History is the source of truth of a session; a JSONL event file is a projection of it that has to survive
crashes, torn writes, repeated delivery and concurrent writers. This project models that subsystem in Dafny and proves
what every step keeps and what holds over all runs, crashes included. `dafny verify dfyconfig.toml` checks everything.

The parts, from the file up:

- `Writer`, `WriterRuns`, `WriterService`, `WriterHandover`: the single writer of an event file (buffer, commit chain,
  fail-stop, retire, close), its runs, what it accepts and completes, and several writers of one file after each other.
- `LifecycleLock`: the re-entrant FIFO lock per location, the commit chain beside it, ordered multi-lock.
- `TailRecovery`, `TailReading`, `Quarantine`, `CompactionTransaction`, `CompactionLaws`, `Reconcile`, `TurnRecovery`,
  `RecoveryContents`: the crash protocols over files, when they refuse, and what their reports and repairs say.
- `Outbox`, `EnqueueRuns`, `Projector`, `ReadBack`, `Images`, `Drain`, `ExactlyOnce`, `AckedTargets`, `AckedFields`,
  `FinalDrain`, `ResultBlocking`: the transactional outbox, its idempotent consumers, and what an acknowledgement says
  about the file.
- `Readiness`, `LedgerStore`, `LedgerRuns`, `Lifecycle`, `LifecycleExhaustion`, `LifecycleProof`: the readiness row, the
  two tables as one store, all their runs, the lifecycle driver with the one-query admission in front of it, and what
  its answers rest on.
- `EventSchema`, `ProjectionCompatibility`: when a stored event is an acceptable image of the canonical one.
- `ConfirmRegistry`, `ConfirmOutcomes`, `RepairScheduler`, `ContextCompaction`, `ContextOutcomes`: three smaller state
  machines. `Json` holds the shared value types.

Code that updates state in place is a class whose methods are tied to a step function on values; the theorems about runs
are lemmas about those step functions. A crash is a budget: an operation dies after that many durable effects, and the
theorems hold for every budget. What other tasks do during an await is either a parameter of the operation (`Lifecycle`,
`CompactionTransaction`) or a step of its own between two steps of the operation (`Writer`, `LifecycleLock`,
`ExactlyOnce`). Two modules have no other actor: a drain in `Drain` and `FinalDrain` runs by itself, which
`ExactlyOnce.DrainAlone` ties to the interleaved steps, and a quarantine has the files of its location to itself.

## What the model assumes

- One JavaScript thread: a method is one uninterrupted stretch between awaits. Each SQLite statement or transaction is
  one step.
- SHA-256 is injective and fresh UUIDs are new. An append, a rename and a manifest replacement happen as a whole or not
  at all; the only partial write is the torn tail that `TailRecovery` is about. The rebuild marker is created in one
  step.
- A lock that the context says is held is held by that task, and a holder does not let its own commits overlap.
- Every append to an event file and every replacement of one happens under the lifecycle lock of its location, which a
  drain holds from its listing to its end; so nobody else appends between a consumer's read and its append.
  `ExactlyOnce` states this as a condition on the schedule and shows what happens without it.
- A check of a location whose file is missing gives no proof, and nobody drains into a missing file or appends to it:
  the check begins with a look for the file, and the readiness gate is shut meanwhile.
- Paths are valid regular files; symbolic-link and permission checks, the lock between processes, file time stamps, log
  messages and trace callbacks are not modelled. Wall-clock time appears only as the deadlines of confirmations.
- JSON text is a tree whose objects have no key order; a proper prefix of an object is not JSON (section 4 of RFC 8259).
- Between a crash inside a quarantine and its recovery nobody else writes the files of that location, which the
  readiness gate keeps shut.
- `ContextCompaction`: the surface identities of the messages are distinct and differ from the checkpoint's.

## Where the code falls short of its intent

Each of these is a lemma; where a condition makes the intended property true, it is proved for all inputs under exactly
that condition.

- Tail repair hands a UTF-16 offset to a truncation that counts bytes: the log is restored iff it is single-byte text
  (`TailRecovery.TornRecord`), and a second repair can remove what the first one left: with a single event whose
  payload ends in a string of wide characters, two repairs leave an empty file iff there are two or more of them
  (`TailRecovery.TwoRepairsEmptyTheLogIff`).
- An enqueue upgrades a row of the old form also when it is acknowledged, without looking at the file. The row may then
  stand for a call that the ledger holds with another attribution, and becomes ready like that: an upgraded call keeps
  its image iff the ledger agrees with the new attribution, an upgraded result always
  (`AckedTargets.UpgradeAfterAckIff`, `AckedTargets.LateAttribution`).
- The projector's read-back takes a tool_result-shaped dispatch diagnostic for the result it looks for, so an earlier
  diagnostic of the same tool use, of the same request and attempt without a tool use, or of the same turn with neither,
  keeps the target pending until the file is replaced (`ResultBlocking.StuckAlongRuns`,
  `ResultBlocking.ThreeObstructions`).
- An initial request context that carries the final marker is appended again by every call
  (`Projector.SecondEnsureFindsSlot`).
- A compaction whose payloads the fold will not accept is written all the same, and every later call then fails
  (`CompactionTransaction.SecondCall`).
- A lock holder's append overtakes queued commits (`WriterRuns.HolderOvertakesIffCommitsAreQueued`), and its close hands
  the file over past them: it is safe iff nothing that is queued will still be written
  (`WriterHandover.CloseUnderLockIsSafeIff`).
- Nested writer drains lock in file path order, multi-lock in key order (`LifecycleLock.OppositeOrdersDeadlock`).
- A step that is started again after its recovery event was written is never closed again
  (`TurnRecovery.OnlyThisTurnIsClosed`).
- A reserved confirmation registered under an empty session id escapes bulk cancellation
  (`ConfirmRegistry.CancelAllEmptiesIff`) and can make it settle a waiter of another tool
  (`ConfirmRegistry.CancelToolSettlesAnother`), and reservation does not exclude a response, although its comment says
  so (`ConfirmRegistry.ReservationDoesNotExcludeAResponse`).
- A lifecycle that becomes ready only in its fifth attempt is still marked blocked, because the loop looks at the row
  only at the start of an attempt: a ready row is returned iff an attempt is left
  (`LifecycleExhaustion.DriverReturnsReadyIff`, `LifecycleExhaustion.ReadyInTheFifthAttempt`).
- A repair that fails takes the retirement it was asked for with it: the retry retires iff a retirement was asked for
  again (`RepairScheduler.RetryRetiresIff`, `RepairScheduler.FailedRetirementIsLost`).
- An urgent request during a repair that is then skipped is dropped (`RepairScheduler.SkippedDropsTheWish`), and so is a
  request the attempt callback makes for a location about to be dropped (`RepairScheduler.CallbackRequestIsLost`).

## Model

| member | source | states |
|---|---|---|
| EventSchema.NormalizeEventSchema | electron/sessionEventSchema.ts:46-64 | the upcast loop answers exactly for known types at a version from 1 to the current one, reaches the current version and keeps type and payload |
| ProjectionCompatibility.PayloadsMatch | electron/sessionLedgerProjectionCompatibility.ts:50-71 | the delete-and-prune loop holds iff the payloads are equal, or equal after one-sided, validly typed additive fields in a permitted direction are taken away; the right-hand side has no loop, deletion or pruning |
| ProjectionCompatibility.AttributionCharacterised | electron/sessionLedgerProjectionCompatibility.ts:50-71 | the three attribution rules of tool calls: matched iff every other field is equal, common attributions are equal and one-sided ones are strings |
| ProjectionCompatibility.ArtifactCharacterised | electron/sessionLedgerProjectionCompatibility.ts:50-71 | the nested artifact rule of tool results: matched iff the expected side is the actual one with a well-formed artifact id inserted at its path |
| ProjectionCompatibility.PruneUndoesPut | electron/sessionLedgerProjectionCompatibility.ts:83-102 | deleting a field and pruning the ancestors this emptied undoes exactly the insertion of that field, for any path and value |
| ProjectionCompatibility.PruneEmptyParentsLoop | electron/sessionLedgerProjectionCompatibility.ts:94-102 | the pruning loop from the deepest ancestor up computes the pruned record |
| ProjectionCompatibility.MatchedResultsAgree | electron/sessionLedgerProjectionCompatibility.ts:50-71 | matched tool results agree on every path that is neither above nor below the artifact reference |
| ProjectionCompatibility.SessionEventProjectionMatches | electron/sessionLedgerProjectionCompatibility.ts:42-48 | both events normalise to the same type and version and their payloads match |
| ProjectionCompatibility.MatchIsReflexiveOnSupported | electron/sessionLedgerProjectionCompatibility.ts:42-48 | an event matches itself iff its schema is supported; unknown and future schemas match nothing on either side |
| ProjectionCompatibility.MatchIsNotTransitive | electron/sessionLedgerProjectionCompatibility.ts:42-48 | three events of which the first and second, and the second and third match, but not the first and third |
| ProjectionCompatibility.DirectionOfMatch | electron/sessionLedgerProjectionCompatibility.ts:13-23 | the relation is symmetric for tool calls; for tool results an added reference is accepted in one direction only |
| ProjectionCompatibility.ToolResultProjectionPayloadMatches | electron/sessionLedgerProjectionCompatibility.ts:109-135 | the loop over live diagnostics decides the match of the remaining payloads |
| ProjectionCompatibility.LiveDiagnosticsAccepted | electron/sessionLedgerProjectionCompatibility.ts:109-135 | a live result that adds only permitted diagnostics to the canonical one is accepted |
| ProjectionCompatibility.AcceptedResultsAgreeOutsideResult | electron/sessionLedgerProjectionCompatibility.ts:109-135 | an accepted live result equals the canonical one outside `result` |
| Readiness.GateIsTotalOnReachableRows | electron/sessionLedgerReadiness.ts:133-147 | on a well-formed row the gate never throws, never needs its default scope, and lets work through iff the row is ready, which has nothing pending |
| Readiness.GateRefusesIff | electron/sessionLedgerReadiness.ts:133-147 | the gate refuses iff the row is to be bootstrapped and does not say where it comes from |
| Readiness.UpdateKeepsRowInv | electron/sessionLedgerReadiness.ts:149-250 | every guarded update keeps: ready means nothing pending, dirty means something pending, a token iff checking, a retry scope iff blocked |
| Readiness.OwnerNeverDecreases | electron/sessionLedgerReadiness.ts:214-219 | no update lowers the reconciled owner generation |
| Readiness.BecomesReadyIff | electron/sessionLedgerReadiness.ts:149-250 | a row that is not ready becomes ready iff the update is a valid proof for the bootstrap it is in or for the check whose token it holds, with nothing pending |
| Readiness.LeavesReadyIff | electron/sessionLedgerReadiness.ts:149-250 | a ready row stops being ready iff it is blocked, loses its proof or gets a pending target |
| Readiness.CheckingIff | electron/sessionLedgerReadiness.ts:149-250 | a check begins iff the row is unknown or dirty, with the token minted, and ends iff by its own token with a valid proof, by recovery, a block or a new target |
| Readiness.BlockedIff | electron/sessionLedgerReadiness.ts:149-250 | a row becomes blocked iff it is blocked or the file of a legacy location is missing, with the scope and class of the block that came first; only a reopening ends it |
| Readiness.BootstrapIff | electron/sessionLedgerReadiness.ts:161-166 | a bootstrap begins iff it has the identifier its row was made with, and once |
| Readiness.IdentityStays | electron/sessionLedgerReadiness.ts:96-250 | session, origin and bootstrap never change, the read version only by the merge of a ready legacy row |
| Readiness.ProofMovesBy | electron/sessionLedgerReadiness.ts:149-250 | whose proof a row carries, and that its ledger generation moves otherwise only when the proof is lost |
| Readiness.InvalidationMovesOn | electron/sessionLedgerReadiness.ts:235-240 | losing the proof takes a ready row to unknown under the next ledger generation, and changes no other row |
| Outbox.DecodeRoundTrip | electron/sessionLedgerOutbox.ts:52-108 | decoding an accepted encoding gives its digest, or for a legacy row its original arrays; anything else is refused |
| EnqueueRuns.UnsupportedEncodingIff | electron/sessionLedgerOutbox.ts:67-108 | an encoding is called unsupported iff one of the two stored parts is a record, one names an encoding, and neither names the known one |
| Outbox.UpgradeKeepsMeaning | electron/sessionLedgerOutbox.ts:114-190 | a permitted upgrade of a legacy row keeps the event type, the identities and every field outside the additive ones |
| LedgerStore.Store.EnqueueInTransaction | electron/sessionLedgerOutbox.ts:317-376 | one transaction: the whole new tables, the conflict errors, and nothing changed on an error |
| LedgerStore.Store.AcknowledgeTarget | electron/sessionLedgerOutbox.ts:388-420 | acknowledges only a complete observation of the obligation, and makes a dirty row unknown when nothing is left pending |
| LedgerStore.Store.BeginCheck | electron/sessionLedgerReadiness.ts:182-189 | mints a token iff the row is unknown or dirty; the whole new tables |
| LedgerStore.Store.CompleteCheck | electron/sessionLedgerReadiness.ts:191-202 | changes the row iff it is checking under this very token and the proof is valid |
| LedgerStore.Store.InvalidateProof | electron/sessionLedgerReadiness.ts:235-240 | a ready row becomes unknown with the next ledger generation |
| LedgerStore.Store.RefreshReadyProof | electron/sessionLedgerReadiness.ts:242-250 | replaces the proof of a ready row with nothing pending, and of no other |
| LedgerStore.Store.ReopenAllTargets | electron/runtime/sessionLedgerLifecycleProduction.ts:118-130 | every target of the location becomes pending again, and no other row changes |
| LedgerStore.Store.ReadUsableAdmission | electron/sessionLedgerReadiness.ts:78-94 | the one query succeeds iff the row is ready, of this session generation, reconciled by this process, and nothing is pending |
| LedgerRuns.InvAlongRuns | electron/sessionLedgerReadiness.ts:112-250 | the readiness invariants hold after every run of admissible steps of any number of actors |
| LedgerRuns.GateNeverFails | electron/sessionLedgerReadiness.ts:133-147 | from empty tables no run makes the gate throw a provenance error, and it opens only with nothing pending |
| LedgerRuns.ResetAtReady | electron/runtime/sessionLedgerLifecycleProduction.ts:118-130 | re-opening targets for a rebuild at a ready row breaks the invariant iff the location has a target |
| LedgerRuns.RowsPersist | electron/sessionLedgerReadiness.ts:112-131 | over all runs no row disappears, its provenance is fixed and its owner generation never decreases |
| LedgerRuns.TokenAlongRuns | electron/sessionLedgerReadiness.ts:182-226 | a token stays valid over a run iff no step of the run disturbs the check; lost, it never comes back |
| LedgerRuns.CheckTokenSafety | electron/sessionLedgerReadiness.ts:182-212 | a completion succeeds iff since its token was minted no new or still pending target was enqueued, and no block, recovery or earlier completion came; a stale one changes nothing |
| LedgerRuns.NoRivalWhileHeld | electron/sessionLedgerReadiness.ts:182-189 | no second check can begin while a token is held |
| LedgerRuns.PayloadFrozen | electron/sessionLedgerOutbox.ts:317-376 | over all runs a target keeps its identity, its payload changes at most once, only from legacy to canonical form, and never after that |
| LedgerRuns.DecodableAlongRuns | electron/sessionLedgerOutbox.ts:67-108 | every payload the application itself stored decodes |
| EnqueueRuns.EnqueueAcceptsIff | electron/sessionLedgerOutbox.ts:317-376 | a target is accepted iff its material is in order, it belongs to a location of its session and to a History event of its own, and what is stored under it stands for the same material or for older material that may be upgraded; afterwards the row stands for its material |
| EnqueueRuns.EnqueueErrors | electron/sessionLedgerOutbox.ts:317-364 | which conflict a refused target is refused with; the earlier one counts |
| EnqueueRuns.EnqueueMarksDirty | electron/sessionLedgerOutbox.ts:370-376 | a target still to be projected leaves its location dirty and without a check token unless it is blocked or not bootstrapped yet; no other readiness row changes |
| EnqueueRuns.CallUpgradeComesFromHistory | electron/sessionLedgerOutbox.ts:114-157 | everything the upgrade of a call adds is in History: its turn, its step and the one call of the model response with its tool use |
| EnqueueRuns.ResultUpgradeComesFromHistory | electron/sessionLedgerOutbox.ts:159-190 | the upgrade of a result takes its step and its result from the finished or not dispatched tool call |
| EnqueueRuns.RecordedAlongRuns | electron/sessionLedgerOutbox.ts:341-369 | over every run each row of the outbox has its History event, and carries the sequence of that event and the generation of its location |
| EnqueueRuns.RunsFromEmptyAreRecorded | electron/sessionLedgerOutbox.ts:341-369 | so it is in every run from empty tables |
| EnqueueRuns.RowIsItsFirstTarget | electron/sessionLedgerOutbox.ts:341-369 | a row that a run brought in carries session, generation and projection order of the target enqueued first, and the sequence its History event had |
| EnqueueRuns.DrainFollowsHistory | electron/sessionLedgerOutbox.ts:378-386 | a drain that has acknowledged a pending target has acknowledged every pending one before it in canonical History, by the sequences of the History events themselves |
| Projector.SecondEnsureFindsSlot | electron/sessionEvents.ts:133-193 | calling a consumer again after it appended finds the event; the one exception is an initial context that carries the final marker, which is appended again |
| Projector.EnsureKeepsAtMostOnce | electron/sessionEvents.ts:133-338 | a consumer never appends an identity that the ledger already holds |
| Projector.EnsureAllKeeps | electron/runtime/sessionLedgerOutboxProjector.ts:36-82 | stopped anywhere, a projection only appends and fills no identity twice |
| ReadBack.SameIdentityIff | electron/runtime/sessionLedgerOutboxProjector.ts:121-131 | the read-back takes an event for the expected one iff they have one type and agree on the first identity field the event has |
| ReadBack.SameTextIff | electron/runtime/sessionLedgerOutboxProjector.ts:102-118 | two events have one identity text iff they are of one kind, final contexts apart, and their naming fields read the same, as long as attempts are free of the separator |
| ReadBack.CallReadBackIff | electron/runtime/sessionLedgerOutboxProjector.ts:84-93 | a call that is read back may differ from the expected one in its attribution only |
| ReadBack.RequestShapeIff | electron/runtime/sessionLedgerOutboxProjector.ts:42-47 | a request projection is a header and a context of the same attempt of the same request |
| Drain.Insert | electron/sessionLedgerOutbox.ts:378-386 | inserting one row into the ordered pending list keeps order and content |
| Drain.ListPending | electron/sessionLedgerOutbox.ts:378-386 | the pending query: exactly the pending rows of the location, in (sequence, projection order, id) order |
| Drain.ListingUnique | electron/sessionLedgerOutbox.ts:378-386 | the query has exactly one possible answer |
| Drain.ListingSeesPending | electron/sessionLedgerOutbox.ts:378-386 | the query comes back empty iff the readiness statements see nothing pending at the location |
| Drain.DrainOutbox | electron/sessionLedgerOutbox.ts:459-525 | the loop of one drain, cut off after any number of durable effects, computes the drained state and its report |
| Drain.HandleRow | electron/sessionLedgerOutbox.ts:468-523 | one row: decode, resolve, compare, upgrade, project, acknowledge, with every way to refuse |
| Drain.DrainOrder | electron/sessionLedgerOutbox.ts:459-525 | the rows acknowledged are the first n of the list except those without a source, and the drain stops at the first mismatch and names it |
| Drain.DrainAcksPrefix | electron/sessionLedgerOutbox.ts:459-525 | with every source present, exactly a prefix of the list is acknowledged, the projected count is its length, and every other row keeps its status |
| Drain.DrainGrows | electron/sessionLedgerOutbox.ts:459-525 | a drain loses no row and only appends to the ledger |
| Drain.StopsWithoutSteps | electron/sessionLedgerOutbox.ts:468-523 | an iteration stops without naming a failed target only when the process dies |
| Drain.HandleSpends | electron/sessionLedgerOutbox.ts:468-523 | an iteration that changes the tables has spent a durable step |
| ExactlyOnce.ExactlyOnceProjection | electron/sessionLedgerOutbox.ts:459-525 | over every schedule of enqueues, live appends, files moved away and rebuilt, and single steps of a drain, with other actors between any two steps and a crash after any: no tool-call, tool-result, request or turn identity is in the ledger twice, and for every expected event of an acknowledged target the ledger holds an event of the promised identity that matches it as an acknowledgement asks, or for a tool call equals it outside the attribution fields; while the file is missing the location is not ready; a live append adds an absent identity that no drain under way has decided to append |
| ExactlyOnce.ExactlyOnceUnderTheLock | electron/sessionEvents.ts:1344-1346 | the same when live appends come only while no drain holds the lock of the location, as every commit takes that lock |
| ExactlyOnce.LiveAppendWhileDecided | electron/sessionEvents.ts:174-192 | between the read and the append of a consumer, a live append keeps every identity at most once iff it is of an absent identity other than the decided one |
| ExactlyOnce.DrainAlone | electron/sessionLedgerOutbox.ts:459-525 | the loop of one drain, whatever its budget of durable effects, is a run of the single steps with nobody in between |
| ExactlyOnce.DrainKeepsOnce | electron/sessionLedgerOutbox.ts:459-525 | so a drain cut off after any durable effect keeps identities unique and the events of acknowledged targets in the ledger |
| Images.CallImageIff | electron/sessionLedgerOutbox.ts:114-157 | an event that matches the old material of a call equals the upgraded one outside the attribution fields, and matches it iff it agrees on the attribution fields both have and the new schema version is supported |
| Images.ResultImageStays | electron/sessionLedgerOutbox.ts:159-190 | an event that matches the old material of a result, live diagnostics included, matches every permitted upgrade of it |
| AckedTargets.AckedEventExactlyOnce | electron/sessionLedgerOutbox.ts:388-420 | for each expected event of an acknowledged target, in the form the canonical builder gives it, its identity is in the ledger exactly once, and the one event there matches it, for a tool call possibly but for the attribution fields |
| AckedTargets.UpgradeAfterAckIff | electron/sessionLedgerOutbox.ts:341-361 | an enqueue that rewrites an acknowledged target leaves it acknowledged and matched by the ledger iff the call that is there agrees with the new attribution; a result stays matched always |
| AckedTargets.ImagesLastIff | electron/sessionLedgerOutbox.ts:459-525 | from an acknowledgement on, in every schedule that neither re-opens the targets nor takes the file away, the target stays acknowledged, and every event of it matched in the ledger iff each upgrade agreed with the ledger |
| AckedTargets.ImagesAlongRuns | electron/sessionLedgerOutbox.ts:388-420 | over every schedule, re-opening and rebuilding included, a target is acknowledged only with every event matched in the ledger, unless an upgrade while it was acknowledged disagreed |
| AckedTargets.ReadyMeansProjected | electron/sessionLedgerReadiness.ts:133-147 | a ready row has its file in place and every target of the location acknowledged with all its events in the ledger, and matched when no upgrade disagreed |
| AckedFields.TerminalMatchesIff | electron/sessionLedgerOutbox.ts:445-457 | a stored turn end is accepted for an expected one iff turn and reason are the same and it adds only the three permitted fields, the two error fields being strings |
| AckedFields.PresentTerminal | electron/sessionEvents.ts:210-236 | a consumer that reports a turn end as already there has found one of the same turn with the same reason |
| AckedFields.AckedFieldByField | electron/sessionLedgerOutbox.ts:422-457 | over every schedule the ledger holds, for each expected event of an acknowledged target, one that agrees with it field by field: a turn end in turn and reason, a result outside permitted diagnostics, a call outside an attribution it was upgraded with, everything else in every field |
| AckedTargets.LateAttribution | electron/runtime/sessionLedgerLifecycleProduction.ts:81-103 | a call recorded under one request, an acknowledged row without a request, and a History event that names another: the enqueue of the baseline goes through, the check completes, and the row is ready although no event in the ledger matches the material its target stands for |
| FinalDrain.FinalDrainAcksAll | electron/sessionLedgerOutbox.ts:459-525 | an uninterrupted drain acknowledges every pending target that resolves to its stored material or to a permitted upgrade of a legacy row, when no target contradicts another one or the ledger |
| FinalDrain.SelfFit | electron/runtime/sessionLedgerOutboxProjector.ts:36-82 | what a consumer appends for an event in canonical form is accepted by the consumer, read back under the promised identity, and acknowledged |
| FinalDrain.DistinctSlotsCoherent | electron/runtime/sessionLedgerOutboxProjector.ts:36-82 | targets in canonical form contradict neither each other nor an empty ledger as soon as no two of their events claim the same identity and no request or turn event names a tool use |
| FinalDrain.OneOfEachKind | electron/runtime/sessionLedgerOutboxProjector.ts:36-69 | the conditions are met by targets of every projection kind together, also over a ledger with an event of an unknown schema that no consumer looks at |
| FinalDrain.OldRowIsAcknowledged | electron/sessionLedgerOutbox.ts:500-503 | a pending row in the old form, whose stored material is not the canonical one, is upgraded and acknowledged |
| ResultBlocking.DiagnosticBlocksResult | electron/runtime/sessionLedgerOutboxProjector.ts:70-82 | a canonical tool result not yet in the ledger is projected and read back iff the ledger holds no diagnostic that the lookup takes for it |
| ResultBlocking.ObstructedForEver | electron/runtime/sessionLedgerOutboxProjector.ts:70-82 | once the first event the lookup takes is a diagnostic, no projection over this ledger or any extension of it observes the result |
| ResultBlocking.StuckAlongRuns | electron/sessionLedgerOutbox.ts:459-525 | its target then stays pending in every run, with any number of drains, until the file is replaced |
| ResultBlocking.ThreeObstructions | electron/runtime/sessionLedgerOutboxProjector.ts:121-131 | three concrete ledgers: a diagnostic of the same tool use, one of the same request and attempt that names no tool use, and one of the same turn that names neither |
| Lifecycle.RunLifecycle | electron/sessionLedgerLifecycle.ts:126-261 | under the lock, with other actors moving at every await: ready is returned only on a row the one-query admission accepts, blocked only on one it refuses, an admitted row is returned unchanged, and tables and outcome are those of the driver on values |
| LifecycleExhaustion.LoopEnds | electron/sessionLedgerLifecycle.ts:193-260 | the loop gives the answer of the one attempt that answers, or, iff none of the five does, blocks the row as exhausted |
| LifecycleExhaustion.ExhaustedIffNoneAnswered | electron/sessionLedgerLifecycle.ts:193-260 | when nobody but the driver writes that failure class, the result reports exhaustion iff none of the five attempts answered |
| LifecycleExhaustion.ReadyRowIsReturnedIff | electron/sessionLedgerLifecycle.ts:193-260 | a row that is ready after n attempts is returned as ready, unchanged, iff n is at most four; after the fifth it is blocked as exhausted |
| LifecycleExhaustion.DriverReturnsReadyIff | electron/sessionLedgerLifecycle.ts:126-261 | the same for the whole driver under the lock |
| LifecycleExhaustion.ReadyInTheFifthAttempt | electron/sessionLedgerLifecycle.ts:193-260 | it happens: a target enqueued during each of the first four baselines and acknowledged during the fifth leaves the row ready and admissible, and the driver blocks it |
| Lifecycle.EnsureReady | electron/sessionLedgerLifecycle.ts:111-279 | the same for the whole slow path; started from an admitted row it returns ready and changes nothing |
| Lifecycle.EnsureAdmission | electron/sessionLedgerLifecycle.ts:281-284 | the fast path gives the answer of the slow path, and leaves the tables alone when it succeeds |
| Lifecycle.ReconcileOwner | electron/sessionLedgerLifecycle.ts:128-152 | the owner fence: goes on only with the owner generation advanced, stops only blocked and not advanced |
| Lifecycle.Attempt | electron/sessionLedgerLifecycle.ts:193-256 | one round of the bounded loop: ready only on a ready row left alone, blocked only on a row that is not ready |
| Lifecycle.OthersKeep | electron/sessionLedgerLifecycle.ts:42-64 | while the lifecycle lock is held nobody else makes the row ready, moves its owner or changes its provenance |
| LifecycleProof.ReadyRestsOnProof | electron/sessionLedgerLifecycle.ts:126-261 | over all requests, replies and actors: a driver that starts on a row that is not ready answers ready only when a rebuild, bootstrap or baseline it awaited succeeded with a valid proof, and the row carries exactly the watermark and generation of that proof |
| LifecycleProof.RoundRests | electron/sessionLedgerLifecycle.ts:193-256 | a round makes the row ready only by work it awaited, that succeeded, and whose proof the row then carries |
| LifecycleProof.FailedWorkBlocks | electron/sessionLedgerLifecycle.ts:193-256 | a round whose awaited work fails answers blocked for a baseline retry, and with which class: by what was awaited, the failure, and how the quarantine ended |
| LifecycleProof.FailedFirstRebuildBlocks | electron/sessionLedgerLifecycle.ts:154-176 | when the rebuild of a mismatching file fails before the loop, the driver answers blocked with its class |
| LifecycleProof.FailedReconciliationBlocks | electron/sessionLedgerLifecycle.ts:136-150 | when a previous owner cannot be reconciled, the driver answers blocked with its class and the owner stays |
| LifecycleProof.QuarantineOnlyWhenDegraded | electron/sessionLedgerLifecycle.ts:243-250 | the file is quarantined only after a failure that says it is damaged, and only when that dependency is installed |
| LifecycleProof.QuarantineIsAwaited | electron/sessionLedgerLifecycle.ts:243-250 | what another actor commits during the quarantine is in the tables afterwards |
| LifecycleProof.UnaskedOwnerGoesOn | electron/sessionLedgerLifecycle.ts:136-152 | when the fence has nobody to ask, it goes on whatever that call would have given |
| LifecycleProof.CalmRunIsReadyIff | electron/sessionLedgerLifecycle.ts:126-261 | with nothing pending, nobody else about and every call succeeding, the driver answers ready iff the row can become ready: not blocked, or a retry is asked for with what it needs |
| Writer.SessionEventWriter.AppendChunk | electron/sessionEvents.ts:1138-1148 | one chunk: refused at the hard limits or when fenced, else buffered, and submitted at the batch limits; the whole new state |
| Writer.SessionEventWriter.AppendNow | electron/sessionEvents.ts:1127-1136 | a critical append takes everything buffered before it into its own batch |
| Writer.SessionEventWriter.EnterHead | electron/sessionEvents.ts:1308-1346 | the head of the chain gets the lock: a batch of a failed writer is lost, a retirement takes effect, a drain holds the lock |
| Writer.SessionEventWriter.Settle | electron/sessionEvents.ts:1315-1376 | the append in flight numbers and commits its batch, or fails and loses batch and buffer together |
| Writer.SessionEventWriter.Retire | electron/sessionEvents.ts:1204-1224 | fences at once, retires through the chain or immediately for a lock holder |
| Writer.SessionEventWriter.WithLifecycleDrain | electron/sessionEvents.ts:1179-1181 | puts a drain on the chain, unless the caller holds the lock |
| Writer.SessionEventWriter.CloseBegin | electron/sessionEvents.ts:1188-1195 | closes the entrance, flushes, and remembers how many tasks it waits for: none for a lock holder |
| WriterService.ChunkAcceptedIff | electron/sessionEvents.ts:1138-1148 | a chunk is accepted iff the writer is open and healthy and it fits the hard limits; it is buffered behind the others, and everything buffered is submitted iff a batch limit is reached |
| WriterService.NowAcceptedIff | electron/sessionEvents.ts:1127-1136 | a critical append is accepted iff the writer is open and healthy, and submits itself together with everything buffered before it |
| WriterService.FlushSubmits | electron/sessionEvents.ts:1157-1165 | a flush submits what is buffered, and nothing else |
| WriterService.FlushWritesAll | electron/sessionEvents.ts:1157-1165 | after a flush the chain ends, if its appends succeed, with every accepted input in the file, each once, behind what the file held |
| WriterService.RetirementComes | electron/sessionEvents.ts:1204-1224 | a retirement refuses everything at once, and when the chain has ended the writer is retired; a lock holder retires it at once |
| WriterService.CloseComes | electron/sessionEvents.ts:1188-1202 | a close refuses everything at once, and when the chain has ended it can end |
| WriterRuns.InvAlongRuns | electron/sessionEvents.ts:1302-1393 | over every run: accepted inputs are exactly the committed, lost, in-flight, queued and buffered ones, the loss counters are right, the file is the base plus the consecutively numbered committed inputs, and the pending counters never pass the hard limits |
| WriterRuns.NothingIsLostSilently | electron/sessionEvents.ts:1082-1125 | the same from the construction of a writer over any existing file |
| WriterRuns.FailStop | electron/sessionEvents.ts:1315-1342 | after a failed append or a retirement nothing is accepted and nothing reaches the file any more |
| WriterRuns.OrderAlongRuns | electron/sessionEvents.ts:1302-1313 | while lock holders append only with no commit queued, inputs reach the file in the order of acceptance |
| WriterRuns.CommittedMeansAllEarlier | electron/sessionEvents.ts:1127-1136 | the barrier: an input in the file has every earlier accepted input before it, and the file is the base followed by a numbered prefix of the accepted inputs |
| WriterRuns.HolderOvertakesIffCommitsAreQueued | electron/sessionEvents.ts:1308-1313 | a lock holder's append keeps the order iff no commit is queued |
| WriterHandover.NumbersStayUnique | electron/sessionEvents.ts:1188-1224 | over successive writers of one file the sequence numbers strictly increase, as long as no lock holder closes a writer while a queued commit will still be written: the writer has not failed and no retirement is queued ahead of the commit |
| WriterHandover.LastSeqIsMax | electron/sessionEvents.ts:1435 | the numbering goes on from the greatest number in the file, in whatever order its records stand |
| WriterHandover.CloseUnderLockDuplicates | electron/sessionEvents.ts:1157-1202 | from every reachable state that violates this, initialized or not, with a buffer, draining or already closing, the close has a continuation that gives one number to two events |
| WriterHandover.CloseUnderLockIsSafeIff | electron/sessionEvents.ts:1157-1202 | so the close keeps the numbers unique over all continuations iff nothing that is queued will still be written |
| LifecycleLock.MutualExclusion | electron/sessionLedgerLifecycle.ts:42-64 | at most one task holds the lock of a location, across deletion and re-creation of map entries |
| LifecycleLock.LockAlongRuns | electron/sessionLedgerLifecycle.ts:42-64 | in every run the lock of a location is granted in the order it was asked for |
| LifecycleLock.ReentryIff | electron/sessionLedgerLifecycle.ts:42-51 | asking again for a lock the task holds goes on at once, whichever of its nested acquisitions that was; asking for any other waits behind everybody who asked before |
| LifecycleLock.HolderNeverWaitsOnItsChain | electron/sessionEvents.ts:1157-1165 | over all runs from an idle start, whatever the order of requests, no holder of the lock waits for the commit chain of that location, through a flush, a commit, a drain or a retirement |
| LifecycleLock.NoDeadlock | electron/sessionLedgerLifecycle.ts:66-72 | with requests above everything held, some waiting task can go on whenever one waits |
| LifecycleLock.SortedRunsNeverDeadlock | electron/sessionLedgerLifecycle.ts:66-72 | the same after every interleaving from an idle start |
| LifecycleLock.NestedAcquisitionIsSorted | electron/sessionLedgerLifecycle.ts:66-72 | each nested acquisition over sorted distinct keys asks above everything held |
| LifecycleLock.OppositeOrdersDeadlock | electron/sessionEvents.ts:598-607 | writer drains nest in file path order: two acquisitions in opposite orders block each other for ever |
| LifecycleLock.LockTable.Enter | electron/sessionLedgerLifecycle.ts:42-51 | the synchronous part of taking the lock: re-entry, or one more turn on the entry in the map |
| LifecycleLock.LockTable.Leave | electron/sessionLedgerLifecycle.ts:59-63 | release, and removal of the entry when nobody uses it |
| TailRecovery.EventsFile.ReadDetailed | electron/sessionEvents.ts:1538-1583 | the reading loop with repair: events, issues, new file and integrity |
| TailReading.ReportedIff | electron/sessionEvents.ts:1546-1576 | the reader reports exactly the lines that are neither empty nor an event, under their numbers: a torn tail as recoverable, anything else as a possible loss |
| TailReading.IntegrityIff | electron/sessionEvents.ts:1577-1583 | complete iff every line that is not empty is an event, degraded iff some other line is not torn |
| TailReading.WidthIsLeast | electron/sessionEvents.ts:1538-1583 | a code point takes as few bytes as can hold it |
| TailReading.BlankIff | electron/sessionEvents.ts:1557 | which characters count as white space at the end of a line |
| TailRecovery.TornRecord | electron/sessionEvents.ts:1548-1572 | a log followed by a proper prefix of one more record: every record is read, and the repair restores exactly the log iff all its characters are single bytes, else it cuts into the log; a cut behind a closing brace is reported and left alone |
| TailRecovery.WholeRecordIsKept | electron/sessionEvents.ts:1574-1576 | a record that only lost its newline is kept and gets it back |
| TailRecovery.RepairIsIdempotent | electron/sessionEvents.ts:1538-1583 | repairing again changes nothing, for a single-byte log |
| TailRecovery.RepairOfCutLog | electron/sessionEvents.ts:1538-1583 | what a repair does to a log cut off anywhere: the missing newline is added, nothing changes, or the file is cut at the number of UTF-16 units of the records before |
| TailRecovery.SecondRepair | electron/sessionEvents.ts:1538-1583 | for a log with multi-byte characters the first repair cuts into the log, and the second changes nothing iff that cut is at the start of a record or behind a closing brace inside one |
| TailRecovery.RepairsSettle | electron/sessionEvents.ts:1538-1583 | from any cut, at most one repair for each record before it and one more lead to a prefix of the log that repairs leave alone |
| TailRecovery.TwoRepairsOfOneRecord | electron/sessionEvents.ts:1562-1572 | a log of one record behind which an append was torn: the first repair cuts at its number of UTF-16 units, the second puts a lost newline back, keeps what ends in a closing brace, or empties the file |
| TailRecovery.TwoRepairsEmptyTheLogIff | electron/sessionEvents.ts:1562-1572 | when that record is an event whose payload ends in a string with n three-byte characters at its end and single bytes before: n = 1 leaves it short of its last brace for good, and two repairs leave an empty file iff n > 1 |
| TailRecovery.UnitsAgainstBytes | electron/sessionEvents.ts:1569-1570 | a text has at most as many UTF-16 units as bytes, and equally many iff all characters are single bytes |
| TailRecovery.BatchNeverMerges | electron/sessionEvents.ts:1355-1363 | whatever the file holds, a later batch starts on a line of its own |
| TailRecovery.AppendAfterTornRecord | electron/sessionEvents.ts:1355-1363 | after a torn append to a single-byte log the next record lands right behind the complete ones and the file reads back whole |
| TailRecovery.EventsFile.AppendLines | electron/sessionEvents.ts:1355-1363 | the append of a batch: repair when the last line is open, then the data on lines of its own |
| Quarantine.LedgerFiles.MoveArtifacts | electron/sessionEvents.ts:586-595 | the move loop, cut off after any number of file mutations |
| Quarantine.CompleteListsAll | electron/sessionEvents.ts:586-595 | a manifest that says it is complete lists every planned artifact as moved, whatever crashes went before |
| Quarantine.LedgerFiles.RecoverInterrupted | electron/sessionEvents.ts:449-520 | the directory loop finishes the first interrupted manifest of the location |
| Quarantine.LedgerFiles.QuarantineLedger | electron/sessionEvents.ts:536-596 | a quarantine attempt, recovery first, with every error and crash point |
| Quarantine.MoveIsSafe | electron/sessionEvents.ts:494-518 | from any interrupted position the move never reports a collision or a missing artifact, keeps every byte in exactly one place with the index moved first, and with enough budget completes |
| Quarantine.RecoverFinds | electron/sessionEvents.ts:473-493 | recovery finds the one interrupted directory in whatever order directories are listed |
| Quarantine.AttemptIsSafe | electron/sessionEvents.ts:536-596 | one attempt from any state a crash can leave |
| Quarantine.RecoveryIsSafe | electron/sessionEvents.ts:473-520 | a recovery on its own finishes what is interrupted without an error, and touches nothing when nothing is |
| Quarantine.QuarantineSurvivesCrashes | electron/sessionEvents.ts:449-596 | after any series of crashed quarantines, allowed or refused, and stand-alone recoveries the state is one of three phases, a completed quarantine stays complete, and a step left alone leaves nothing interrupted, an allowed quarantine every artifact archived with its original bytes |
| CompactionTransaction.FoldCompactionEvents | src/shared/compactionEvents.ts:48-86 | the replay loop over maps computes the fold |
| CompactionTransaction.FoldIsLocal | src/shared/compactionEvents.ts:48-86 | what the fold makes of one transaction depends only on the events of that transaction |
| CompactionTransaction.Sink.EnsureCompactionTransaction | electron/sessionEvents.ts:99-131 | the call with every error branch and crash point, with other writers appending at each await |
| CompactionTransaction.EnsureResumes | electron/sessionEvents.ts:99-131 | from any prefix of the transaction a call appends exactly the missing events in order, with an end that points at start and summary |
| CompactionTransaction.SecondCall | electron/sessionEvents.ts:115-120 | after completion a further call appends nothing, and succeeds iff the payloads are acceptable to the fold |
| CompactionTransaction.EndCommitsIff | src/shared/compactionEvents.ts:70-84 | the end that is written commits iff candidate hash, shadow ranges, windows and compared fields are acceptable |
| CompactionTransaction.TransactionAlongRuns | electron/sessionEvents.ts:66-131 | over all series of crashed calls the log holds a growing prefix of the transaction, each event once, nothing else changed |
| CompactionTransaction.EndWindowsAndTurn | electron/sessionEvents.ts:76-97 | which windows and turn the end names: those of summary and start where they are strings |
| CompactionTransaction.EndHasNoOtherField | electron/sessionEvents.ts:76-97 | the end has no field but the ones named |
| CompactionLaws.CommitsIff | src/shared/compactionEvents.ts:70-84 | an end commits iff digest, shadow ranges and windows are in order, it points at start and summary by number, and repeats their fingerprints and digest |
| CompactionLaws.RefusesIff | electron/sessionEvents.ts:99-131 | a call refuses, and then leaves the log alone, iff one of seven reasons holds, each read off the payloads and the log; the earlier one is given |
| CompactionLaws.NumberedWithoutGap | electron/sessionEvents.ts:66-131 | whatever a call and other writers append is numbered without a gap behind what was there |
| Reconcile.ReconcileSessionEvents | electron/sessionEvents.ts:1680-1703 | the loops over insertion-ordered sets compute the repairs |
| Reconcile.ScanIsOpen | electron/sessionEvents.ts:1683-1696 | the scan finds exactly the turns, steps and tool calls that were started and not ended since |
| Reconcile.RepairsAreExact | electron/sessionEvents.ts:1697-1703 | one repair for each open step, then each unanswered call, then each open turn, each once, numbered without a gap above the maximum |
| Reconcile.RepairsContinueTheNumbering | electron/sessionEvents.ts:1680-1703 | the repairs carry the next numbers above everything in the ledger, without a gap |
| Reconcile.RepairsCloseEverything | electron/sessionEvents.ts:1680-1703 | with the repairs appended nothing is open, and a second pass repairs nothing |
| RecoveryContents.WholeRepairsSay | electron/sessionEvents.ts:1697-1703 | every repair of the whole ledger ends its step or turn as interrupted, or answers its call with a synthetic failure |
| RecoveryContents.NumbersAsText | electron/sessionEvents.ts:1683-1696 | identifiers are compared as text: different numbers never collide, a number and its decimal string always do |
| RecoveryContents.OthersAsText | electron/sessionEvents.ts:1683-1696 | the texts of the other values: lists run together, records all read the same |
| TurnRecovery.Ledger.Recover | electron/sessionEvents.ts:889-975 | the plan loops and the appends of the per-turn recovery, cut off anywhere; a conflict appends nothing |
| TurnRecovery.PlanAdvances | electron/sessionEvents.ts:925-970 | appending the first planned repair leaves exactly the others planned |
| TurnRecovery.RecoveryResumes | electron/sessionEvents.ts:889-975 | cut off after any k appends, a second run ends where an uninterrupted one would, and a further run has nothing to do |
| TurnRecovery.OnlyThisTurnIsClosed | electron/sessionEvents.ts:925-970 | a step of the turn, the turn itself and a tool use of the request stay open iff their recovery event was already there; other turns, their steps and other tool uses keep their state |
| RecoveryContents.RepairsSay | electron/sessionEvents.ts:889-975 | every planned repair closes something open of this turn or an authorised call, as interrupted, signed with the identifier derived from what it closes |
| RecoveryContents.RefusesIff | electron/sessionEvents.ts:889-975 | a recovery refuses, and then appends nothing, iff an identifier it would use is taken by another event or an authorised call was already answered by another recovery |
| ConfirmRegistry.InvAlongRuns | electron/toolConfirmRegistry.ts:40-263 | in every run each waiter is resolved at most once, by the step that removes it, and while registered has exactly one armed timer for its deadline |
| ConfirmRegistry.LeavingIsSettling | electron/toolConfirmRegistry.ts:176-263 | a promise is resolved or queued exactly when its waiter leaves the registry |
| ConfirmRegistry.WaiterKept | electron/toolConfirmRegistry.ts:202-248 | a waiter keeps identity, deadline and generation; its revision grows by one exactly on a restore that goes through |
| ConfirmRegistry.FireSettlesItsOwner | electron/toolConfirmRegistry.ts:54-61 | a timer that fires settles exactly the waiter that armed it |
| ConfirmRegistry.TimeoutsAreOnTime | electron/toolConfirmRegistry.ts:202-216 | no waiter times out before its deadline, and from then on its timer can fire |
| ConfirmRegistry.KeysAreInjective | electron/toolConfirmRegistry.ts:36-38 | identifiers without the separator never share a key |
| ConfirmRegistry.RequestPrefix | electron/toolConfirmRegistry.ts:286-295 | the key prefix of a request is that of the keys of this request and of no others |
| ConfirmRegistry.CancelEachIff | electron/toolConfirmRegistry.ts:116-127 | a bulk cancellation removes exactly the selected waiters that can be reached, and each reserved waiter whose key a selected reserved one spells with its own fields; what stays is unchanged |
| ConfirmRegistry.CancelRequestRemoves | electron/toolConfirmRegistry.ts:286-295 | cancelling a request removes a waiter iff it is of that request and, when reserved, not registered under an empty session id |
| ConfirmRegistry.CancelToolSettlesAnother | electron/toolConfirmRegistry.ts:116-127 | cancelling a tool settles a waiter of another tool iff both are reserved, share request and tool use, and the cancelled one was registered under an empty session id |
| ConfirmRegistry.CancelToolWitness | electron/toolConfirmRegistry.ts:116-127 | a run from the empty registry in which that happens |
| ConfirmRegistry.CancelAllEmptiesIff | electron/toolConfirmRegistry.ts:304-315 | cancelling everything empties the registry iff no reserved waiter was registered under an empty session id |
| ConfirmRegistry.ReservationDoesNotExcludeAResponse | electron/toolConfirmRegistry.ts:176-216 | a response is accepted on a reserved waiter, against what the comment on reservation promises |
| ConfirmRegistry.Registry.WaitForToolConfirm | electron/toolConfirmRegistry.ts:40-88 | registers one waiter per key, or gives back the registered one |
| ConfirmRegistry.Registry.ReserveResponse | electron/toolConfirmRegistry.ts:202-216 | reserves iff the waiter is waiting and before its deadline; at the deadline it times out |
| ConfirmRegistry.Registry.RestoreReserved | electron/toolConfirmRegistry.ts:234-248 | restores iff reserved and before the deadline |
| ConfirmRegistry.Registry.CancelSelected | electron/toolConfirmRegistry.ts:116-127 | the bulk loops that delete while iterating |
| ConfirmRegistry.NamedStep | electron/toolConfirmRegistry.ts:40-88 | with identifiers free of the separator, keys and the fields of their waiters keep belonging together |
| ConfirmRegistry.Registry.SubmitResponse | electron/toolConfirmRegistry.ts:176-186 | accepts iff a waiter is registered under the key, takes it out and queues its outcome |
| ConfirmRegistry.Registry.CancelConfirm | electron/toolConfirmRegistry.ts:189-199 | cancels iff a waiter is registered under the key |
| ConfirmRegistry.Registry.FireTimeout | electron/toolConfirmRegistry.ts:54-61 | a due timer settles its waiter as timed out |
| ConfirmOutcomes.RemovedIff | electron/toolConfirmRegistry.ts:176-263 | which steps take the waiter of a key out: a response and a cancellation always, a reservation from the deadline on, a commit check past it, a reserved cancellation while reserved, and its own timer from the deadline on |
| ConfirmOutcomes.AnsweredAlongRuns | electron/toolConfirmRegistry.ts:176-263 | over every run an open confirmation is answered with an outcome iff the step that took its waiter out is of the kind that gives it: approved and rejected a response that says so, cancelled a cancelling step, timed out a timer or a late reservation |
| ConfirmOutcomes.ResponseNamesItsWaiter | electron/toolConfirmRegistry.ts:176-186 | a waiter that is approved or rejected was so by a response to its own key |
| RepairScheduler.InvAlongRuns | electron/sessionLedgerRepairScheduler.ts:36-105 | in every run a pending location is running or has one timer, never both, and at most one repair of it is in flight, as long as no callback asks for a location about to be dropped |
| RepairScheduler.AnotherRunFollows | electron/sessionLedgerRepairScheduler.ts:43-73 | a recovered repair is followed at once by another run iff one was asked for meanwhile, carrying its retirement; a failed one leaves a timer that starts the next run |
| RepairScheduler.UrgentRequestIsRecorded | electron/sessionLedgerRepairScheduler.ts:76-96 | a request during a run is recorded iff it retires or names a new generation |
| RepairScheduler.WishIsKept | electron/sessionLedgerRepairScheduler.ts:43-98 | the wish for another run survives every other step until the running repair returns |
| RepairScheduler.UrgentRequestIsServed | electron/sessionLedgerRepairScheduler.ts:43-98 | no lost wake-up: whatever happens between an urgent request during a repair and the return of that repair, its recovery is followed at once by another run that carries the retirement |
| RepairScheduler.UrgentRequestSurvivesFailure | electron/sessionLedgerRepairScheduler.ts:43-98 | the same when the repair fails: its timer stays whatever else happens, and when it fires a run starts that carries the retirement |
| RepairScheduler.RetryRetiresIff | electron/sessionLedgerRepairScheduler.ts:43-73 | the retry after a failed repair retires the sink iff a retirement was still noted or was asked for since the repair began, whatever else happens; that the failed repair was to retire does not count |
| RepairScheduler.FailedRetirementIsLost | electron/sessionLedgerRepairScheduler.ts:43-73 | a requested retirement whose repair fails is not part of the retry unless it is asked for again |
| RepairScheduler.SkippedDropsTheWish | electron/sessionLedgerRepairScheduler.ts:52-57 | when the repair is skipped, the urgent request is dropped with the entry: nothing runs or waits for it |
| RepairScheduler.RequestWakes | electron/sessionLedgerRepairScheduler.ts:76-99 | a request leaves its location running or with a timer |
| RepairScheduler.NothingStartsAfterStop | electron/sessionLedgerRepairScheduler.ts:100-105 | after a stop no repair starts any more |
| RepairScheduler.StopIsFinal | electron/sessionLedgerRepairScheduler.ts:100-105 | a stop drops every location, and no repair starts after it |
| RepairScheduler.RequestIsKept | electron/sessionLedgerRepairScheduler.ts:76-99 | a request is kept with all it asks for: the retirement if any request says so, the generation of the latest that names one; other locations stay |
| RepairScheduler.BackoffIsMonotone | electron/sessionLedgerRepairScheduler.ts:69-72 | the delay grows with the failures between the initial delay and the maximum |
| RepairScheduler.BackoffDoubles | electron/sessionLedgerRepairScheduler.ts:69-72 | the first delay is the initial one, and each further one is twice the one before until the maximum |
| RepairScheduler.CallbackRequestIsLost | electron/sessionLedgerRepairScheduler.ts:52-66 | a request that the attempt callback makes for a location about to be dropped, after a recovery or a skip, starts a repair nobody waits for, and the next request puts a second one beside it |
| RepairScheduler.StepKeepsIffQuiet | electron/sessionLedgerRepairScheduler.ts:43-105 | a step keeps the invariant iff its callback makes no such request |
| RepairScheduler.Scheduler.Request | electron/sessionLedgerRepairScheduler.ts:76-99 | one request on the closure state: the whole new state |
| RepairScheduler.Scheduler.RepairReturns | electron/sessionLedgerRepairScheduler.ts:43-74 | what a returning repair does to the closure state, in all three outcomes |
| ContextCompaction.ShrinksWithinBudget | electron/sessionContextCompaction.ts:141-166 | an output that reaches the commit is the checkpoint followed by the messages outside the ranges, has strictly fewer tokens than the input and at most the budget |
| ContextCompaction.KeptInOrder | electron/sessionContextCompaction.ts:141-166 | the kept messages are exactly those outside the ranges, in their original order |
| ContextCompaction.RequiredMessagesSurvive | electron/sessionContextCompaction.ts:117-166 | every required message survives, in planned and replayed compactions |
| ContextCompaction.RangesCover | src/shared/surfaceReplay.ts:301-311 | the computed ranges are increasing intervals whose union is exactly the removed messages |
| ContextCompaction.PlanShadowsOldMessages | src/shared/compactionActions.ts:5-11 | the planner shadows exactly the optional messages but the last |
| ContextCompaction.ReplayedRangesAreSound | electron/sessionContextCompaction.ts:126-138 | replayed ranges are accepted only in bounds, increasing, disjoint and free of required messages; otherwise the repair fails |
| ContextCompaction.VerifyRanges | electron/sessionContextCompaction.ts:126-138 | the verification loop accepts iff every range fits |
| ContextOutcomes.RangesFitIff | electron/sessionContextCompaction.ts:126-138 | lost ranges are accepted iff they name stretches of the surface, one behind the other, without a required message |
| ContextCompaction.ComputeShadowedRanges | src/shared/surfaceReplay.ts:301-311 | the grouping loop |
| ContextCompaction.CompactSessionContext | electron/sessionContextCompaction.ts:92-210 | what may be committed is the checkpoint and the messages outside the ranges, with fewer tokens than before, at most the budget and every required message; nothing once the signal is aborted; the other outcomes in the order of the checks |
| ContextOutcomes.CommitsIff | electron/sessionContextCompaction.ts:92-210 | it reaches the commit iff a whole summary came back in time that is smaller than what it replaces and brings the surface within the budget, and the signal is still not set |
| ContextOutcomes.CancelledIff | electron/sessionContextCompaction.ts:92-210 | it is cancelled iff the signal is set at the beginning, at an error of reading the context, around the summary, or before a commit that would succeed |
| ContextOutcomes.NoOpIff | electron/sessionContextCompaction.ts:92-210 | there is nothing to do iff there are too few messages, nothing is lost or planned, or the checkpoint is worth no less than what it would replace |
| ContextOutcomes.UncompressibleIff | electron/sessionContextCompaction.ts:92-210 | it is given up iff the required messages alone, or the checkpoint with what is kept, exceed the budget |
| ContextOutcomes.FailedIff | electron/sessionContextCompaction.ts:92-210 | it fails iff another repair has its name, the context cannot be read, the lost ranges are not stretches without required messages, or no whole summary comes back |
| ContextCompaction.PlanUserCompaction | src/shared/turnBoundaryCompaction.ts:53-84 | the planner gives up iff the required messages alone exceed the budget, and otherwise records the ranges of the old messages |
| ContextOutcomes.PlansIff | src/shared/compactionActions.ts:5-11 | there is a plan iff at least two messages are optional and the checkpoint is planned for less than all of them but the last |

## Left out

- Electron windows, menus, IPC, notifications, model calls and network wrappers: wiring and strings.
- Drain.HandleRow: compaction targets go through `ensureCompactionTransaction`, which `CompactionTransaction` models by
  itself; the drain model refuses that projection kind.
- Drain.DrainOutbox: nobody else moves while the loop runs; the interleaved drain is
  `ExactlyOnce.ExactlyOnceProjection`.
- Projector.EnsureAllKeeps: a request projection whose two events are not a header and a context is refused before it
  writes anything; the original would write both payloads first. Nothing builds such a target.
- ExactlyOnce.ExactlyOnceProjection: that a live event has an identity of its own (a fresh request, turn or tool use) is
  a condition on the schedule, as is that a rebuilt file comes with re-opened targets and that a missing file gives no
  proof; the handlers that make this so are not part of this model.
- FinalDrain.FinalDrainAcksAll: the resolver is a fixed function during the drain, and a row without a resolver is not
  covered.
- RepairScheduler.RetryRetiresIff: whether a failed repair got as far as its retirement is not modelled, and its attempt
  callback is taken to ask for nothing, as in the application, where it only logs.
- Lifecycle.RunLifecycle: what a baseline scan, a bootstrap or a rebuild does to the file is not modelled; each is an
  awaited call that gives a proof or fails, with arbitrary admissible steps of other actors meanwhile.
- LifecycleLock.LockAlongRuns: the held set that callbacks inherit through the asynchronous context is taken as
  genuinely held; the lock file between processes is not modelled.
- WriterRuns.InvAlongRuns: the index file, commit observers and error callbacks are derived data and diagnostics, and
  are left out.
- LifecycleLock.HolderNeverWaitsOnItsChain: `drainAcceptedCommits` waits for the chain whether its caller holds the lock
  or not; nothing calls it, and its wait is not modelled.
- TailRecovery.RepairIsIdempotent: single-byte logs; `TailRecovery.SecondRepair` covers the others.
- CompactionTransaction.FoldCompactionEvents: the list of rejected transactions that the fold also reports is not kept.
- Reconcile.ReconcileSessionEvents: the directory scan over all sessions and the rewriting of index files are left out.
- TurnRecovery.RecoveryResumes: the authorised tool uses come as a list without duplicates; sorting it is not modelled.
- ConfirmRegistry.InvAlongRuns: the abort controllers for running tools and the trust and memory-tier lookups never
  touch a waiter.
- RepairScheduler.InvAlongRuns: for callbacks that request a repair of a location about to be dropped the invariant does
  not hold; `RepairScheduler.StepKeepsIffQuiet` gives the exact condition. In the application the callback only logs.
- ContextCompaction.CompactSessionContext: the surface projection, the fingerprints and the commit itself are not
  modelled; whether a repair is already committed, and how reading the context and asking for the summary end, are
  inputs.
- `buildCanonicalToolResultProjectionTargets`: the construction of targets from History would add only field copying.
