# Verified model of the Arkade vault authorization ledger

A Dafny 4.11 model of the part of the vault server that decides what may be signed: the durable
ledger, the handlers that drive it, the checks on the transactions they sign, and the byte formats
that are authenticated. `dafny verify dfyconfig.toml` checks the whole project.

## How it is organised

- **Boarding** (`BoardTables`, `BoardInvariant`, `BoardProtocol`, `BoardStatus`, `BoardOutcomes`,
  `BoardReplies`, `BoardDecisions`, `BoardLedger`). One boarding outpoint owns a sequence of register attempts with authorization,
  dispatch and submission rows. `BoardTables` has each store transaction as a function on tables;
  `BoardLedger` is the store object, whose methods are proved equal to those functions; `BoardProtocol`
  runs any number of handlers concurrently over the tables, with storage faults, lost replies, lost
  Operator answers and crashes at every point, and proves what holds in every run; `BoardOutcomes` says
  what the answers of those handlers mean and which registrations can never be resolved; `BoardReplies`
  logs what the Operator said and compares it with every row and answer; `BoardDecisions` says exactly
  when each transaction succeeds and that every admitted request can be carried through.
- **Spending** (`VtxoTables`, `VtxoInvariant`, `VtxoProtocol`, `VtxoTheorems`, `VtxoBoundary`,
  `VtxoCounters`, `VtxoReserving`, `VtxoLedger`, `Sums`). The reserved, signed, submitted, finalized, aborted and
  unresolved states, input locks, the one-operation fence and the rolling allowance, with handlers that
  hold row snapshots taken outside the lock. `VtxoReserving` says in literal times and states when a
  reservation succeeds and why a row changes.
- **Policy sequence** (`SequenceFile`, `PolicySequence`). The counter file that is advanced before
  COMMIT. `SequenceFile` has the file operations of one replacement, the path a reader sees and the
  state on stable storage; `PolicySequence` runs the transactions of the two ledgers above over it, with
  crashes, power loss and restores of older databases.
- **Recovery and enrollment** (`Recovery`, `Enrollment`). Two smaller durable state machines.
- **Selection and verification** (`Ordering`, `CoinSelection`, `SelectionOutcome`, `Psbt`,
  `SpendVerifier`, `SpendSatisfiable`). The exact-fee solver over an arbitrary fee evaluator, exactly
  when a selection succeeds, the checks on the resulting packets, and the bridge between the two.
- **Signature guards** (`SignatureGuards`, `PendingProof`). What a signing stage can add to a packet.
- **Encodings** (`Cbor`, `Attestation`, `Encoding`, `Canonical`, `Bundle`, `Layout`). Round trips,
  injectivity and the byte layout of what is authenticated.

A decision that a function of the model makes is stated a second time without that function, in literal
limits, times and fields (`BoardDecisions`, `VtxoReserving`, `SelectionOutcome`, `Layout`, the last parts
of `SpendVerifier`, `PendingProof`, `Recovery` and `Enrollment`), and proved equivalent.

Tables are finite maps. A store method is one atomic step because each is an immediate transaction
under the ledger mutex; its `commits` parameter says whether the policy sequence and the COMMIT
succeed. Hashing, MACs, signatures, taproot scripts, the P-256 library, the fee evaluator and the
packet text codec are parameters, with exactly the laws a theorem names. Clocks do not go back.
Boarding time is in whole seconds; spending time is in nanoseconds with whole-second stamps, because
the difference matters there.

## Properties that turned out not to hold as first stated

- The settlement bound is for half-open days. `VtxoBoundary.ClosedDayHoldsTwoAllowances` gives a run
  in which two full allowances settle with stamps exactly 24 hours apart, because the window compares a
  nanosecond clock with whole-second stamps; `VtxoBoundary.SettlementBoundIsExact` proves that the
  bound holds in every run if and only if the interval is at most 86400 seconds long.
- A VTXO input's payload keeps the output index modulo 32 bits: `Canonical.InputIndexWraps` is the
  witness and `Canonical.PayloadDeterminesRecord` the exact condition.
- A signed operation's retry is promised to be recognised only under its own authenticator counter.
  `VtxoCounters.LoginTakesOverReplay` gives a run in which a login takes that over;
  `VtxoCounters.RecognisedIffLastUse` proves that a retry under any credential is recognised if and only
  if the row is signed and the last accepted assertion of that credential had this count, and
  `VtxoCounters.ReplayRecognisedIff` that the operation's own assertion is recognised if and only if the
  row is still signed and no other count of that counter was accepted since.
- The counter file on stable storage does not cover every commit. When a replacement is renamed but the
  directory sync fails, the retry finds its count in the file and commits without another sync;
  `PolicySequence.RiskyCommitRollsBack` gives the run in which power loss then lets a start accept an
  older database, and `PolicySequence.DurableCoversIff` proves that stable storage covers every commit
  throughout a run if and only if the run has no such commit.
- A restored database is accepted if and only if the file is not ahead of it
  (`PolicySequence.RestoreAcceptedIff`); `PolicySequence.RollBackIff` says when that drops counted rows.
  One with an equal count can turn a signed operation back into a reserved one:
  `PolicySequence.RestoreUndoesSigning`.
- After a fee bump the recovery row keeps the old signature under the new hash:
  `Recovery.FeeBumpKeepsOldSignature` says when a retry of the bump is then answered. A bump replaces the
  stored packet if and only if other requests left another hash in the row between its two phases
  (`Recovery.BumpStoredIff`, with the run of `Recovery.OverlappingBumpReplaces`).
- "Definitely not submitted" speaks for one handler, not for the row: it means a stored rejection, or
  that this handler sent nothing (`BoardOutcomes.AnswersAreHonest`), while another handler of the same
  request may have sent (`BoardOutcomes.NotSubmittedIsPerHandler`).
- A dispatched registration need not be resolvable. `BoardOutcomes.StuckIff` proves that no continuation
  ever records its result if and only if no process can still record one; a lost reply to the dispatch
  commit or a crash before the Operator call leads there, and the outpoint is blocked for good
  (`BoardOutcomes.StuckForever`).
- The classifier's "ready" is not honoured at attempt 2^32 - 1, and is everywhere else:
  `BoardStatus.ReadyIsHonoured`.
- The read-side boarding classifier and the rotation rule agree only on reachable tables:
  `BoardStatus.UnreachableDisagreement` is a table where they differ.
- The only-one-added check on a signed pending proof passes if and only if the phone key and the vault
  key differ: `PendingProof.SigningPhoneProof`.

## Model

| member | source | states |
|---|---|---|
| BoardInvariant.BeginKeeps | internal/policy/vault_board.go:529-645 | allocating an attempt keeps every table invariant (gap-free numbering, distinct digests and tree keys, conserved value, chained rows) and only advances the tables |
| BoardInvariant.DispatchKeeps | internal/policy/vault_board.go:979-1066 | writing a dispatch row keeps the table invariants and leaves superseded attempts alone |
| BoardInvariant.PhaseKeeps | internal/policy/vault_board.go:651-760 | authorizing and dispatching a delete or finalize phase keeps the table invariants, so the two exclude each other and need an accepted register |
| BoardInvariant.SubmitKeeps | internal/policy/vault_board.go:1077-1151 | recording an Operator result keeps the table invariants, so a result always follows a dispatch with its digest |
| BoardInvariant.NoGaps | internal/policy/vault_board.go:529-645 | if attempt b was registered, so was every attempt before it |
| BoardInvariant.RotateSettles | internal/policy/vault_board.go:812-886 | an attempt that may rotate was rejected, released, never dispatched, or is past expiry and quarantine, and was never finalized |
| BoardInvariant.TickKeeps | internal/policy/vault_board.go:41-45 | a settled attempt stays settled as time passes |
| BoardInvariant.LatestIs | internal/policy/vault_board.go:926-930 | the queried latest attempt exists and is the highest registered one |
| BoardProtocol.StepSafe | internal/application/vault_board_phases.go:22-360 | every step of every handler, with any storage fault or crash, keeps tables and handler positions consistent and only advances the tables |
| BoardProtocol.EveryRunSafe | internal/application/vault_board_phases.go:22-360 | every run from the empty ledger is safe |
| BoardProtocol.SupersededRowsFrozen | internal/policy/vault_board.go:888-924 | once attempt a+1 exists, nothing later in any run adds or changes a row of attempts up to a |
| BoardProtocol.OneLiveAttempt | internal/policy/vault_board.go:812-886 | at every moment of every run at most one attempt of an outpoint is dispatched, not rejected, not released and not yet 30 seconds past its expiry |
| BoardProtocol.SentAtMostOnce | internal/application/vault_board_phases.go:109-136 | each operation, attempt and phase leaves the process at most once, only under a durable authorization and dispatch with the same digest, and only before the exit delay matured |
| BoardProtocol.FinalIsLast | internal/policy/vault_board.go:1153-1201 | a finalize authorization is on the last attempt for good and excludes a delete |
| BoardProtocol.OneCommitment | internal/application/vault_board_phases.go:345-359 | at most one final commitment is ever sent per boarding outpoint |
| BoardStatus.CurrentReadable | internal/policy/vault_board.go:447-525 | the current attempt can be loaded in every reachable state and is the latest one |
| BoardStatus.ReadyIffCanRotate | internal/application/vault_board_status.go:24-80 | the classifier says ready-with-next-attempt exactly when the store would rotate, and blocked exactly when it would not |
| BoardStatus.ReadyStays | internal/application/vault_board_status.go:24-80 | ready stays true as time passes until a row of the attempt changes |
| BoardStatus.ReadyIsHonoured | internal/application/vault_board_service.go:190-216 | a fresh request in the prepared state opens exactly the attempt the classifier named if and only if the latest attempt is below 2^32 - 1; at that attempt the store refuses |
| BoardStatus.UnreachableDisagreement | internal/policy/vault_board.go:812-886 | off the reachable tables the two sides can disagree |
| BoardOutcomes.AnswersAreHonest | internal/application/vault_board_phases.go:98-160 | in every run accepted means a stored result that is not a rejection, definitely-not-submitted means a stored rejection or that this handler sent nothing, and an error means it sent nothing |
| BoardOutcomes.NotSubmittedIsPerHandler | internal/application/vault_board_phases.go:98-118 | of two handlers of one request, one can answer definitely-not-submitted while the other has sent |
| BoardOutcomes.UnresolvedIsLatest | internal/policy/vault_board.go:812-886 | a dispatched register without a result is always the latest attempt |
| BoardOutcomes.StuckForever | internal/application/vault_board_status.go:56-60 | once no process can record the result of a dispatched register, no continuation records one, opens another attempt or is classified other than blocked |
| BoardOutcomes.StuckIff | internal/application/vault_board_phases.go:109-136 | a dispatched register without a result is stuck exactly when no continuation ever records one |
| BoardOutcomes.LostDispatchSticks | internal/application/vault_board_phases.go:109-114 | a dispatch that committed but reported an error is answered definitely-not-submitted and blocks the outpoint, with nothing sent |
| BoardOutcomes.CrashBeforeSendSticks | internal/application/vault_board_phases.go:109-118 | a crash between the dispatch row and the Operator call blocks the outpoint |
| BoardReplies.ResultIsTheReply | internal/application/vault_board_phases.go:118-136 | in every run a stored register result is submitted under reference r exactly when the Operator said Ok with r and rejected exactly when it definitely rejected; releases and commitments are stored only on an Ok, the commitment with its authorized transactions |
| BoardReplies.AnswersAreTheReply | internal/application/vault_board_phases.go:98-160 | in every run accepted means the Operator said Ok to this row, and definitely-not-submitted that it definitely rejected it or that this handler sent nothing |
| BoardReplies.OneLiveAtOperator | internal/policy/vault_board.go:812-886 | at every moment of every run at most one registration of an outpoint was sent, not definitely rejected, not acknowledged as released and not yet 30 seconds past its expiry |
| BoardReplies.OneReply | internal/application/vault_board_phases.go:118-136 | a row hears one reply, which nothing changes |
| BoardDecisions.BeginIff | internal/policy/vault_board.go:529-645 | a register request opens attempt n, or is the replay of attempt n, exactly under literal conditions on its amounts, digests, times and the rows of the attempt before |
| BoardDecisions.AcceptedRotatesIff | internal/policy/vault_board.go:41-45 | in every run an accepted, unreleased, never finalized attempt makes room for the next exactly from 30 seconds after its expiry on |
| BoardDecisions.DispatchIff | internal/policy/vault_board.go:979-1066 | a register is dispatched exactly once, on the latest attempt, under its authorized digest and before maturity |
| BoardDecisions.PhaseIff | internal/policy/vault_board.go:651-760 | a delete or finalize is opened exactly once, on the latest accepted attempt, before maturity, and excludes the other |
| BoardDecisions.SubmitIff | internal/policy/vault_board.go:1077-1151 | a result is stored exactly once, for a dispatched row, its digest and a shape the phase allows |
| BoardDecisions.CanRegister | internal/application/vault_board_phases.go:65-136 | every admissible request over an outpoint whose attempts are over has a continuation that sends it and ends with the Operator's reference stored and reported |
| BoardDecisions.CanConclude | internal/application/vault_board_phases.go:162-360 | every accepted registration can be finalized, and can be released, unless either was begun |
| BoardDecisions.RetryAnswers | internal/application/vault_board_phases.go:139-160 | a retried register is answered from the stored result, as ambiguous while there is none, or goes on to sign |
| BoardLedger.Ledger.FirstClash | internal/policy/vault_board.go:591-612 | the loop over prior registers finds the first one with the request's digest or tree key, or proves there is none |
| BoardLedger.Ledger.BeginAttempt | internal/policy/vault_board.go:529-645 | the method's result and new tables are those of the attempt-allocation transaction, and a failed COMMIT changes nothing |
| BoardLedger.Ledger.AppendDispatch | internal/policy/vault_board.go:979-1066 | the method writes a dispatch row exactly as its transaction does, or changes nothing |
| BoardLedger.Ledger.AppendAuthorizationAndDispatch | internal/policy/vault_board.go:651-760 | authorization and dispatch are written together or not at all |
| BoardLedger.Ledger.AppendSubmission | internal/policy/vault_board.go:1077-1151 | the method records a result exactly as its transaction does, or changes nothing |
| VtxoInvariant.ReserveKeeps | internal/policy/vtxo_ledger.go:103-214 | a reservation keeps the ledger invariant: sealed rows, fence order, disjoint inputs, budget now and at the time of every past reservation |
| VtxoInvariant.AbortKeeps | internal/policy/vtxo_ledger.go:452-501 | aborting expired reservations keeps the ledger invariant |
| VtxoInvariant.RewriteKeeps | internal/policy/vtxo_ledger.go:371-390 | moving a row along the state graph, including re-stamping on finalization, keeps the ledger invariant |
| VtxoInvariant.TickKeeps | internal/policy/ledger.go:211-252 | the budget still holds when time passes and rows leave the window |
| VtxoProtocol.SwapIsWholeRow | internal/policy/vtxo_ledger.go:259-292 | when a state-only compare-and-swap succeeds, the live row equals the handler's whole snapshot |
| VtxoProtocol.StepSafe | internal/application/vtxo.go:821-1203 | every step of every spending handler, with any fault or crash, keeps the ledger invariant, the snapshots and the logs of what was answered |
| VtxoTheorems.EveryRunSafe | internal/application/vtxo.go:143-268 | every run from the empty ledger is safe |
| VtxoTheorems.SpentWithinAllowance | internal/policy/ledger.go:211-252 | at every moment of every run the window's total is the outflow of the vault's signed and submitted rows and of its other unaborted rows for 24 hours, and is within the allowance |
| VtxoTheorems.SettledWithinAllowance | internal/application/vtxo.go:871-897 | any half-open 24 hours of settlement stamps hold at most the allowance in amount plus fee |
| VtxoTheorems.OneActivePerVault | internal/policy/vtxo_ledger.go:220-253 | a vault has at most one reserved, signed, submitted or unresolved operation |
| VtxoTheorems.OutpointsNeverShared | internal/policy/vtxo_ledger.go:503-576 | never-aborted operations of a vault, and input-locking operations of any vaults, share no outpoint |
| VtxoTheorems.UnresolvedFencesForever | internal/policy/vtxo_ledger.go:392-403 | an unresolved operation never changes and no operation of its vault is added after it |
| VtxoTheorems.OperationNeverRebinds | internal/policy/vtxo_ledger.go:371-403 | amount, fee, destination, change, digest, expiry and inputs are constant to the end of every run, and the state only moves forward |
| VtxoTheorems.SwapSeesItsSnapshot | internal/application/vtxo.go:985-1037 | in every run a successful swap replaces exactly the row the handler had loaded |
| VtxoTheorems.ReserveResponsesAgree | internal/application/vtxo.go:298-352 | all successful reserve responses for one operation id are identical, the order of their inputs included |
| VtxoTheorems.ReleasedIsDurable | internal/application/vtxo.go:959-1044 | all authorize responses for one operation are identical and durable, and a released operation is never aborted |
| VtxoTheorems.HandedIsDurable | internal/application/vtxo.go:1046-1146 | all checkpoint authorize responses for one operation carry the same checkpoints and Ark txid, which stay in its submitted row |
| VtxoCounters.CountersAreTheLog | internal/policy/signcount.go:29-68 | in every run the stored counters are exactly what the accepted assertions, by signing or login, left |
| VtxoCounters.CounterNeverReused | internal/policy/signcount.go:29-68 | two accepted assertions of one counter are strictly increasing or both zero, so a non-zero count authorizes at most one operation or login (section 6.1.1 of WebAuthn Level 2) |
| VtxoCounters.AuthorizedIffLogged | internal/policy/vtxo_ledger.go:297-345 | over every run with faults and crashes an operation is signed or beyond exactly when an assertion for it was accepted: row and counter commit together or not at all |
| VtxoCounters.SignedOnce | internal/policy/vtxo_ledger.go:297-345 | no operation is signed twice |
| VtxoCounters.ReplayRecognisedIff | internal/policy/vtxo_ledger.go:347-369 | after an operation was signed and any run, a retry with any credential and count is recognised exactly when the row is still signed and that counter, carried through the accepted assertions, stands at that count; with the operation's own assertion, while no other count of its counter was accepted since |
| VtxoCounters.RecognisedIffLastUse | internal/policy/vtxo_ledger.go:347-369 | in every run a retry of any operation under any credential is recognised exactly when the row is signed and the last accepted assertion of that credential had this count |
| VtxoCounters.LoginTakesOverReplay | internal/policy/vtxo_ledger.go:347-369 | a run exists in which a login makes the operation's own count unrecognised and its own recognised |
| VtxoBoundary.AcceptedCanSettle | internal/application/vtxo.go:871-897 | every accepted reservation can be driven to settlement in one moment |
| VtxoBoundary.ClosedDayHoldsTwoAllowances | internal/policy/ledger.go:211-252 | a run exists in which two full allowances settle with stamps exactly 24 hours apart |
| VtxoBoundary.SettlementBoundIsExact | internal/policy/ledger.go:211-252 | the settlement bound holds in every run if and only if the interval is at most 86400 seconds long |
| VtxoLedger.Ledger.SpentInPeriod | internal/policy/ledger.go:211-252 | the row loop returns the exact total, or an error exactly when it leaves the 64-bit range |
| VtxoLedger.Ledger.AbortExpiredRows | internal/policy/vtxo_ledger.go:452-501 | exactly the expired reservations of the vault become aborted |
| VtxoLedger.Ledger.Conflicts | internal/policy/vtxo_ledger.go:220-253 | the scans report an overlap or a fence exactly when some other row has one |
| VtxoLedger.Ledger.ReserveOperation | internal/policy/vtxo_ledger.go:103-214 | expiry, checks and insert happen as one transaction, or nothing changes |
| VtxoLedger.Ledger.TransitionOperation | internal/policy/vtxo_ledger.go:259-292 | the row is written exactly when the stored state is the expected one, and the row found is returned otherwise |
| VtxoLedger.Ledger.AdvanceSignCount | internal/policy/signcount.go:29-68 | the counter moves exactly by its rule, and stays on refusal |
| VtxoLedger.Ledger.CommitSignedOperation | internal/policy/vtxo_ledger.go:297-345 | the swap and the counter are written together or not at all |
| VtxoCounters.LoginAcceptedIff | internal/policy/signcount.go:29-68 | in every run a login is accepted exactly when its credential was never accepted, or last with a lower count, or both counts are zero |
| VtxoReserving.ReserveIff | internal/policy/vtxo_ledger.go:103-214 | a reservation is made, exceeds the allowance or meets an active operation exactly under conditions on the rows before it, with literal expiry and window times |
| VtxoReserving.ReserveChanges | internal/policy/vtxo_ledger.go:103-214 | a reservation adds its row and inputs, aborts exactly the lapsed reservations of its vault, and changes nothing else |
| VtxoReserving.ChangesExplained | internal/application/vtxo.go:748-769 | over every run a row changes only by lapsing under another reservation or by a writer that planned so at some earlier step, in the state, at the time and with the stamp that writer needs |
| VtxoReserving.AbortedOnlyWhenDue | internal/policy/vtxo_ledger.go:452-501 | in every run a reservation is aborted only when its expiry has come or by its phone |
| VtxoReserving.UnexpiredSurvives | internal/policy/vtxo_ledger.go:452-501 | an unexpired reservation survives every reservation step unchanged |
| VtxoReserving.PlansIff | internal/application/vtxo.go:821-1203 | exactly when each writer may plan over the row it holds |
| VtxoReserving.ReservationsLast | internal/application/vtxo.go:203-256 | in every run a reservation expires 120 seconds after its stamp, until it settles |
| VtxoReserving.ReserveRetryIff | internal/application/vtxo.go:298-352 | a retried reserve is answered exactly while its row is not aborted, unresolved or lapsed |
| VtxoReserving.SigningAnswers | internal/application/vtxo.go:985-1044 | a handler that signs releases its own signature when it wins and otherwise at most the winner's for the same transaction and proof |
| VtxoReserving.CheckpointAnswers | internal/application/vtxo.go:1046-1146 | a handler that stores checkpoints hands out what the row holds, for its own request only |
| PolicySequence.SilentKeepsCount | internal/policy/ledger.go:269-286 | transactions that skip the sequence check do not change the counted rows |
| PolicySequence.NewRowsCount | internal/policy/ledger.go:269-286 | every other transaction either changes nothing or raises the count |
| SequenceFile.WrittenIs | internal/policy/monotonic.go:80-116 | wherever a replacement stops, the path shows the old file before the rename and the whole new one after it, and stable storage holds the new one exactly when it finished |
| SequenceFile.NeverTorn | internal/policy/monotonic.go:80-116 | after power loss at any point of a replacement the file is the old stable one or the new one, never torn |
| SequenceFile.Monotonic.Write | internal/policy/monotonic.go:80-116 | the file operations, stopped after any of them, leave the disk the steps define |
| SequenceFile.Monotonic.Observe | internal/policy/monotonic.go:37-60 | refuse lower, accept equal without a write, replace when higher, start only from an empty database; the disk stays sound |
| PolicySequence.FileFallsIff | internal/policy/monotonic.go:106-115 | the visible value goes down exactly when power is lost while the renamed file's directory entry is unsynced |
| PolicySequence.DurableCoversIff | internal/policy/monotonic.go:53-60 | stable storage covers every committed count throughout a run exactly when no commit relied on an unsynced file |
| PolicySequence.VisibleCoversIff | internal/policy/monotonic.go:37-60 | the visible file stops covering the past exactly when power is lost while stable storage does not cover it |
| PolicySequence.FileCoversEveryCommit | internal/policy/monotonic.go:37-60 | the file is at least every count ever committed, in runs with crashes and restores that never lost power or made no such commit |
| PolicySequence.StartNeverRollsBack | internal/policy/ledger.go:254-297 | in those runs a start succeeds only on a database with at least as many counted rows as any ever committed |
| PolicySequence.StartRefusedIff | internal/policy/ledger.go:254-297 | when writes succeed, the start is refused exactly when the file is ahead of the database or gone for a non-empty one |
| PolicySequence.CrashBeforeCommitFailsClosed | internal/policy/vtxo_ledger.go:203-212 | a crash between the file write and COMMIT leaves a database the next start refuses |
| PolicySequence.RestoreAcceptedIff | internal/policy/ledger.go:254-297 | after every run a restored snapshot is accepted exactly when the file is not ahead of it (a missing file: when it is empty), and in runs that the file covers only with the very count in the file |
| PolicySequence.RollBackIff | internal/policy/ledger.go:254-297 | after every run a restore and start can drop counted rows exactly when the file is not ahead of some committed database smaller than another one, and never in runs that the file covers |
| PolicySequence.RestoreUndoesSigning | internal/policy/ledger.go:269-286 | a run exists in which an accepted restore turns a signed operation back into a reserved one |
| PolicySequence.RiskyCommitRollsBack | internal/policy/monotonic.go:56-60 | a run exists in which a commit on an unsynced file and power loss let a start accept an older database |
| Recovery.Ledger.ApplyRecoveryReplay | internal/policy/session.go:189-217 | the method returns the decision and stores exactly what the decision allows |
| Recovery.OneDestination | internal/application/transition.go:93-143 | all signed transitions ever returned for one outpoint and purpose pay one destination |
| Recovery.OneSighashBeforeSignature | internal/policy/session.go:109-137 | until a signature is stored, at most one signature hash was handed to the signers |
| Recovery.SignatureNeverErased | internal/policy/session.go:189-217 | a stored signature is never erased and a bound destination never changes |
| Recovery.ReturnedMatchesAsked | internal/application/transition.go:191-200 | whatever is returned, fresh or replayed, has the submitted unsigned transaction |
| Recovery.FeeBumpKeepsOldSignature | internal/policy/session.go:203-211 | after a fee bump the row keeps the old packet, and a retry is answered if and only if that packet has the bump's transaction |
| Recovery.RowIsItsWrites | internal/policy/session.go:189-217 | over every run, with any interleaving, the row holds the last hash written and, independently, the last signed packet written |
| Recovery.StoredPacketHasRowHashIff | internal/policy/session.go:203-211 | after every run the stored packet has the row's hash exactly when the last signed packet written has the last hash written |
| Recovery.BumpStoredIff | internal/application/transition.go:93-143 | a signed fee bump, whatever ran between its phases, replaces the stored packet exactly when the requests written in between left another hash in the row |
| Recovery.OverlappingBumpReplaces | internal/application/transition.go:93-143 | of two bumps whose first phases overlap, the first to finish replaces the stored packet |
| Recovery.AskIff | internal/policy/session.go:109-137 | exactly when a request goes on to the signers, when it is answered from the row, and that it is otherwise refused without a trace |
| Recovery.LostRequestResumes | internal/application/transition.go:93-143 | a request whose process died before its signature was stored is served when asked again |
| Enrollment.Ledger.IssueSession | internal/policy/enrollment_session.go:12-51 | cleanup, count limit and insert happen as specified, and consumed invites survive the cleanup |
| Enrollment.Ledger.ReservePending | internal/policy/pending.go:70-142 | a live pending row is replayed, an expired one replaced, and a conflicting one refused |
| Enrollment.Ledger.CreateVault | internal/policy/vault_create.go:37-169 | the steps on working copies, left early at any failure, consume the pending row, insert the vault and spend the invite together, or change nothing |
| Enrollment.ConsumedForever | internal/policy/vault_create.go:110-169 | a consumed invite is never deleted, never consumed again and keeps its vault |
| Enrollment.ConsumedInvitesDiffer | internal/policy/vault_create.go:37-95 | distinct consumed invites name distinct vaults |
| Enrollment.VaultCarriesItsCeremony | internal/policy/vault_create.go:37-95 | a vault carries the tier frozen in the exact pending row it consumed |
| Enrollment.StartIsReplayed | internal/policy/pending.go:70-142 | until a ceremony expires, whatever else runs, a start for its invite returns the same handle, vault and challenge |
| Enrollment.ReplacedCeremonyNeverFinishes | internal/policy/vault_create.go:110-169 | a finish that holds a replaced pending row fails in every later state |
| Enrollment.IssueIff | internal/policy/enrollment_session.go:12-51 | a session is issued exactly while fewer than 30 invites are younger than a minute and fewer than 1000 are usable, and lasts ten minutes |
| Enrollment.StartIff | internal/policy/pending.go:70-142 | a start is answered exactly with an unused unexpired invite, by the live ceremony of the same tier and policy or by its own |
| Enrollment.FinishIff | internal/policy/vault_create.go:37-169 | in every reachable state a finish creates its vault exactly when the held ceremony is the stored one, neither it nor its invite has expired, and the vault is new |
| Enrollment.CanEnroll | internal/policy/vault_create.go:37-169 | an issued session can be started and finished |
| CoinSelection.SolveSpend | internal/application/vtxo.go:521-586 | the candidate loop returns the solver's result and the unspent evaluation budget |
| CoinSelection.SolveCorrect | internal/application/vtxo.go:521-586 | for any fee evaluator a solution balances within the cap, a solution with change has the least fixed-point fee and no changeless solution exists, and unsolvable means nothing balances |
| CoinSelection.ListCoins | internal/application/vtxo.go:420-448 | the listing loop returns the candidates and the budget left |
| CoinSelection.ToCoinsMeans | internal/application/vtxo.go:420-448 | a listing is accepted exactly when it fits the budget and every output is usable, and the candidates are those worth more than their own fee |
| CoinSelection.SearchPrefixes | internal/application/vtxo.go:397-415 | the prefix loop returns the first solvable prefix under the shared budget |
| CoinSelection.SelectSpend | internal/application/vtxo.go:363-416 | the whole selection method computes the specified selection |
| CoinSelection.SelectCorrect | internal/application/vtxo.go:363-416 | a selection is the shortest prefix that can balance, conserves value exactly and, with change, has the least fee and no changeless alternative; insufficient means no prefix within the limit balances |
| CoinSelection.RankedInOrder | internal/application/vtxo.go:382-390 | candidates are considered by value after fee, then transaction id, then index |
| CoinSelection.PickedInOrder | internal/application/vtxo.go:402-412 | the chosen coins are stored by outpoint |
| CoinSelection.SelectForgetsListingOrder | internal/application/vtxo.go:363-416 | the selection does not depend on the order in which the indexer lists the outputs |
| SelectionOutcome.SelectIff | internal/application/vtxo.go:363-416 | for any evaluator a selection is refused exactly on a bad listing, an overflow, a failed evaluation or an exhausted budget before anything balances, and otherwise made exactly when some prefix of at most 50 coins balances |
| SelectionOutcome.EnoughIsSelected | internal/application/vtxo.go:363-416 | when some prefix balances and every evaluation up to it succeeds within the 20000, the answer is a selection |
| SelectionOutcome.RankingIs | internal/application/vtxo.go:385-393 | the ranking lists exactly the outputs worth more than their fee, by value after fee, then transaction id, then index |
| SelectionOutcome.BalancesMeans | internal/application/vtxo.go:521-586 | a balance is exact, within the cap, without dust change, with the fee the evaluator asks for the payment first and the change second |
| SelectionOutcome.InputFeeMeans | internal/application/vtxo.go:477-491 | an output's own fee is asked for its value, times and kind and rounded up |
| SelectionOutcome.FeeRoundsUp | internal/application/vtxo.go:493-500 | a usable fee is the least whole number of satoshis not below a finite non-negative result, within 63 bits |
| Psbt.OneSignerIff | internal/application/vtxo_verify.go:55-154 | the leaf and signer checks for one key mean exactly one committed leaf and exactly one signature valid on this transaction |
| Psbt.CollectKeys | internal/application/vtxo_verify.go:129-149 | the signature loop accepts exactly lists of valid, wanted, pairwise different signers |
| Psbt.CheckSigners | internal/application/vtxo_verify.go:114-154 | accepts exactly when every required signer has one valid signature and there is no other |
| Psbt.SignerCount | internal/application/vtxo_verify.go:130-153 | an accepted input carries as many signatures as there are different required signers |
| SpendVerifier.CheckpointIff | internal/application/vtxo_verify.go:181-230 | a checkpoint is accepted exactly when it is the one transaction of its reserved input, over the vault's own output and leaf, and unsigned |
| SpendVerifier.VerifySubmitted | internal/application/vtxo_verify.go:232-257 | accepts exactly the unsigned checkpoint signed by the user and the Operator and nobody else |
| SpendVerifier.SubmittedDetermined | internal/application/vtxo_verify.go:232-257 | a submitted checkpoint is still the one transaction of its reserved input, with one signature per signer |
| SpendVerifier.CheckInputs | internal/application/vtxo_verify.go:298-325 | the input loop accepts exactly one input per checkpoint in stored order with the user's signature, and returns their sum unless it overflows |
| SpendVerifier.CheckOutputs | internal/application/vtxo_verify.go:326-364 | accepts exactly destination, optional change back to the vault and zero anchor |
| SpendVerifier.VerifySpend | internal/application/vtxo_verify.go:280-370 | accepts exactly the packets that are the operation's transaction over the checkpoints, properly signed, with inputs equal to amount plus change plus fee |
| SpendVerifier.SpendDetermined | internal/application/vtxo_verify.go:280-370 | an accepted unsigned transaction is a function of the reserved operation, its inputs and the vault's scripts alone |
| SpendVerifier.PaysReservedFee | internal/application/vtxo_verify.go:365-368 | an accepted packet pays exactly the reserved fee |
| SpendVerifier.SpendOkIff | internal/application/vtxo_verify.go:280-370 | acceptance read off the packet's own fields: the amount to the destination, the change to the vault, the anchor, output 0 of each checkpoint in order, and inputs equal to outputs plus fee |
| SpendVerifier.InputOkIff | internal/application/vtxo_verify.go:309-325 | an input shows the vault's leaf and carries exactly one signature, by the user, valid on this transaction |
| SpendVerifier.CheckpointMovesAll | internal/application/vtxo_verify.go:181-230 | a checkpoint spends the reserved outpoint, moves its whole value to the checkpoint script and pays no fee |
| SpendVerifier.PrevoutsAreReal | internal/application/vtxo_verify.go:298-315 | what input i claims to spend is really output 0 of checkpoint i |
| SpendSatisfiable.MadeSpendOk | internal/application/vtxo_verify.go:280-370 | for every well-shaped conserving operation a wallet that can sign has an acceptable packet |
| SpendSatisfiable.SolverOutputSpendable | internal/application/vtxo.go:203-256 | every operation the selection produces has checkpoints and a spend that the verifiers accept |
| SignatureGuards.IndexOriginal | internal/application/psbtguard.go:377-393 | finds the first equal submitted signature, or none exactly when there is none |
| SignatureGuards.CollectExtras | internal/application/psbtguard.go:332-340 | the matched table leaves exactly the returned entries that are not a first return of a submitted one |
| SignatureGuards.ExtractNewSig | internal/application/psbtguard.go:315-368 | returns the one counting new signature, and an error when there are none or several |
| SignatureGuards.StageAddsOneValid | internal/application/psbtguard.go:38-70 | for a submitted packet whose spent output is verified, whatever packet a signer returns, the stage result is the submitted packet plus one returned signature valid on it under the expected key |
| SignatureGuards.HonestStage | internal/application/psbtguard.go:38-70 | a signer that appends one such signature succeeds with exactly its packet |
| SignatureGuards.SignEveryInput | internal/application/psbtguard.go:86-151 | succeeds exactly when every input can be validly signed, and then adds one signature per input and nothing else |
| SignatureGuards.SignNamedInputs | internal/application/psbtguard.go:156-211 | succeeds exactly when the named inputs are different, unsigned by the key and validly signable, and then changes only them |
| PendingProof.CheckOnlyVaultAdded | internal/application/vtxo_pending_proof.go:165-200 | the rewriting loop accepts exactly when each input has one vault signature and the rest re-encodes to the earlier text |
| PendingProof.OnlyVaultAddedMeans | internal/application/vtxo_pending_proof.go:165-200 | an accepted authorized proof, in the codec's own spelling, is the phone's proof with exactly one vault signature on every input |
| PendingProof.SigningPhoneProof | internal/application/vtxo_pending_proof.go:40-149 | signing a proof that passed the phone check passes the only-one-added check and gives a proof signed by phone and vault, exactly when the keys differ |
| PendingProof.VerifyProof | internal/application/vtxo_pending_proof.go:73-149 | the input loop accepts exactly the proofs that are in order and signed by exactly the required keys |
| PendingProof.PhoneProofIff | internal/application/vtxo_pending_proof.go:40-149 | a phone proof is accepted exactly when its own fields spend the message and the reserved outpoints in order, pay nothing, and carry the phone's one valid signature on every input |
| Cbor.DecodeValue | internal/webauthn/cbor.go:34-101 | the recursive decoder with its map loop computes the specified value and rest |
| Cbor.DecodeMapBody | internal/webauthn/cbor.go:72-97 | the map loop reads exactly n pairs with integer or text keys and no repeats |
| Cbor.EncodeMap | internal/webauthn/cbor.go:198-205 | the map encoder is a header followed by the parts in order |
| Cbor.RoundTripIff | internal/webauthn/cbor.go:34-212 | a value followed by any rest is read back if and only if it is representable and the input is within 4096 bytes |
| Cbor.EncodeDecode | internal/webauthn/cbor.go:34-142 | re-encoding anything the decoder accepts gives back exactly the consumed bytes (section 4.1 of RFC 8949) |
| Cbor.StandardMaps | internal/webauthn/cbor.go:168-212 | the maps of appendix A of RFC 8949 are encoded as listed there |
| Attestation.CoseIsEncoded | internal/webauthn/create.go:194-213 | the assembled COSE key is the encoding of a five-field map, is 77 bytes long and names its key |
| Attestation.ExtractIff | internal/webauthn/create.go:104-168 | extraction accepts exactly the layout of section 6.5.1 of WebAuthn Level 2 and returns what it carries |
| Attestation.AttestedRoundTrip | internal/webauthn/create.go:243-268 | built authenticator data gives back id and key exactly when the extensions are absent or a fitting non-empty map |
| Attestation.ObjectRoundTrip | internal/webauthn/create.go:216-223 | a wrapped object is unwrapped exactly when the authenticator data has 37 to 4065 bytes |
| Encoding.Build | internal/policy/vault_board.go:260-276 | the append loop produces the rendered payload, or an error exactly when some part does not fit |
| Encoding.PrefixFree | internal/policy/ledger.go:122-128 | two payloads of one shape followed by anything agree only if they and their tails are equal |
| Canonical.PayloadDeterminesRecord | internal/policy/vault_board.go:278-410 | across the five board records, the VTXO operation and the VTXO input, equal payloads mean equal records (an input's index modulo 32 bits) |
| Canonical.VtxoKindsDiffer | internal/policy/vtxo.go:392-500 | an operation payload is never an input payload although they share domain and version |
| Canonical.InputIndexWraps | internal/policy/vtxo.go:492-493 | two input rows whose indices differ by 2^32 have one payload |
| Layout.PayloadLayout | internal/policy/vault_board.go:260-410 | every authenticated payload is its domain, version, fields and numbers, in order, byte by byte |
| Layout.SpellsItsValue | internal/policy/ledger.go:122-128 | a number that fits its width is spelled least significant byte first |
| Layout.BundleLayout | internal/policy/vtxo.go:205-277 | the bundle payload is the terms, the count, the inputs in canonical order and the time, byte by byte |
| Layout.CanonicalOrder | internal/policy/vtxo.go:147-183 | the canonical list is the given inputs ascending by raw transaction id, then index, although it compares hexadecimal spellings |
| Layout.HexKeepsOrder | internal/policy/vtxo.go:172-177 | hexadecimal spellings compare as the bytes do |
| Bundle.OrderInputs | internal/policy/vtxo.go:147-183 | the loop with its seen table normalizes, refuses repeats and sorts as specified |
| Bundle.HexRoundTrip | internal/policy/vtxo.go:185-200 | a transaction id and its hexadecimal spelling normalize to the same bytes |
| Bundle.OrderedIff | internal/policy/vtxo.go:147-183 | two accepted lists have the same canonical order exactly when they hold the same inputs |
| Bundle.PayloadIff | internal/policy/vtxo.go:205-277 | bundle payloads are equal exactly when all terms and the set of inputs are, in whatever order the inputs were given |

## Left out

- HTTP routing, JSON, request authentication, logging and configuration: plumbing without a deep invariant.
- Operator, indexer, Esplora and Emulator clients: only their possible answers are modelled.
- Hash, MAC, Schnorr, P-256, taproot and script assembly: parameters, never computed.
- The boarding operation id is the outpoint and vault it is hashed from, so collisions do not exist in the boarding model.
- MAC fields and creation stamps of boarding rows: they do not take part in any decision that is modelled.
- Final-commitment tree validation and reconciliation of a lost final answer against the chain.
- Schema validation: primary keys, foreign keys and checks are taken to hold.
- The text format and MAC of the counter file: the file is its number or torn.
- Enrollment: a vault created without a pending ceremony, a primitive no handler calls.
- Context cancellation during fee selection, which can only end a request early.
- Binary floating point in fee results: fees are exact reals, rounded up.
- The intent library's own check of a pending proof, and its message field.
- SpendSatisfiable.SolverOutputSpendable: is for change up to the largest signed 64-bit amount, because a larger one is refused when the row is sealed.
