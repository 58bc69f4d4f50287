# Atomic commit over a voting contract: a verified model

A client hands a coordinator a list of Get and Put operations that name several
databases. The coordinator splits the list by address and sends each part to the
cohort at that address. Every cohort takes locks, runs its part in an open database
transaction, writes it to disk and casts a ballot. A smart contract, not the
coordinator, tallies the ballots under a timeout, and each cohort commits or aborts
as the contract decides. Safety rests on all three together, so the project models
them as verified components and as one step machine.

`dafny verify dfyconfig.toml` verifies everything.

## Layout

| file | content |
|---|---|
| Common.dfy, Semantics.dfy | messages; what an operation list means on one store, in a write buffer, and on the combined store of all cohorts |
| Base3.dfy, TwoPhaseCommitContract.dfy, AdapterServer.dfy | the contract as stored and computed: base-3 digits of one wrapping 256-bit word, the early-exit tally, the answer string and its decoding |
| Voting.dfy | the contract as ballot arrays: accepted calls, the decision rule, stability |
| Database.dfy | the closed / read-only / open state machine of a database transaction |
| CohortProtocol.dfy, CohortProofs.dfy | a cohort as a step machine with any number of interleaved transactions, and its invariants |
| CohortServer.dfy, Waiting.dfy | the cohort server's methods, each shown to be a run of that machine; the wait for a decision |
| CoordinatorProtocol.dfy, CoordinatorServer.dfy | the coordinator's calls as functions of its two maps, and its methods and loops |
| System.dfy | coordinator, cohorts, contract, network and clock composed: every interleaving |
| SystemSafety.dfy | what every step keeps; agreement, common lock point, decision stability |
| Serializability.dfy | global serializability |
| ClientTruth.dfy | what the client is told is true; strict serializability |
| Runs.dfy | runs put together step by step (modules Undisturbed, Paths); when an aborted reply survives a second submission of its id (Resubmission); when a second submission commits twice (Repetition); what can always happen (Progress) |

The main results, in reading order: `SystemSafety.Agreement`,
`SystemSafety.CommonLockPoint`, `Serializability.GlobalSerializability`,
`ClientTruth.AbortedReplyIsTrue`, `ClientTruth.CommittedReplyIsSerial`,
`ClientTruth.StrictSerializability`, `Resubmission.AbortStandsExactly`,
`Repetition.CommitsOnceExactly`, `Progress.EverybodyCanCommit`,
`Progress.ClientCanLearn`. They speak of
every state of every run of the composed machine. In that machine a ballot may arrive
late, twice, out of order or never; a cohort may stop at any point by taking no
further step; a start-voting call may take effect and still be reported as failed; and
any number of transactions, cohorts and polls interleave. Submissions of different
ids interleave too; those of one id come one at a time, each as one step.

The cohort methods, the coordinator methods and the contract methods are tied to the
machine. `CohortServer.Server.ProcessTransaction` returns a ghost trace of machine
steps that leads from its old state to its new one, and it does so under interference:
between any two of its steps it calls `Others`, whose contract, the only thing a caller
may rely on, lets other threads take any number of machine steps of other transactions.
A ghost flag `alone` stands for a call that nobody interrupts; for such a call the
contract determines the outcome completely. The coordinator's methods compute the
functions `Commit` and `Poll` that the machine applies, and the contract's methods
compute `Voting.StartVoting`, `Voting.Vote` and `Voting.Decide` on the array that the
word stands for. The cohort server and the class `Database.LmdbAdapter` meet in the
functions `AfterBegin`, `AfterClose`, `Read` and `Write`: the adapter's methods compute
them, and the server applies them to the adapter state it keeps for each transaction.

## Assumptions

- The contract's clock never goes back, and the mocked time is unset.
- The contract executes each call atomically. A start-voting call takes effect, if it
  does, before the coordinator goes on: a start mined after the cohorts voted would
  reset their ballots (`Voting.RestartLosesDecision`).
- A cohort gets at most one prepare request per submission, and processes what it gets:
  it does not deduplicate. Within the discipline below that makes one request per id;
  `Runs.dfy` follows what a second request does.
- Submissions of one id do not overlap: the flag is read before it is set, so a second
  call in between sends everything again (`CoordinatorProtocol.OverlapSendsTwice`).
- A `Vote` call returns, whatever became of the ballot.
- A stopped cohort does not come back: recovery is not implemented
  (paper/paper.tex:195).
- An address identifies a cohort. Transaction ids are given, and distinct for distinct
  client transactions.
- A database's write buffer is private until commit, and commit overwrites.
- A value-initialised map entry is zero: no flag set, no decision known.
- Values are unbounded integers. The sum in a relative put
  (src/cohort/cohort_server.cc:140-143) is exact only where it fits 64 bits.
- A method body, or each marked part of it, is one atomic step: data races on the
  servers' maps are outside the model.
- The order in which a hash set or hash map is walked is arbitrary. This covers the
  sorted order that only the repository's tests ask for.
- In a composed run a client does not submit an id again after a complete reply
  (`System.Disciplined`); what happens otherwise is stated below.

## Where the code falls short of its intent

Each of these is a lemma with the exact condition, in both directions, except the last,
where the model only lets the value be anything.

- The contract lets an index overwrite its ballot, so a decision can flip:
  `Voting.OverwritingBallotFlipsDecision` is an instance,
  `Voting.VoteKeepsDecisionExactly` the condition.
- Starting voting again erases a decision exactly when the contract accepts the call:
  `Voting.RestartLosesDecision`.
- The flag that blocks resends is erased with the record of a completed transaction:
  `CoordinatorProtocol.ResubmissionAfterCompletion` is an instance,
  `CoordinatorProtocol.SendsExactlyWhen` the guard. So "an aborted reply stays true" is
  false of the code: `Resubmission.AbortedThenCommitted` is a run in which the client is
  told aborted, submits again, and a database commits.
  `Resubmission.AbortStandsExactly` is the condition: over all runs before and all
  continuations after it, the reply stays true if and only if the submission does not
  reopen the transaction. `Resubmission.AbortStandsForCallers` is the same in terms of
  what the caller can see before the call. After a complete commit reply the same
  submission can make a database commit twice: `Repetition.CommitsOnceExactly` says when,
  for all runs and continuations, and `Repetition.CommitsOnceForCallers` in the caller's
  terms. In both a cohort serves a second request for a published id, as the code does.
- The flag is no lock: a second submission during a first one sends if and only if the
  first has not come to its last request (`CoordinatorProtocol.OverlapSendsTwice`).
- On a commit decision with no cohort answer the reply has no status and the client
  takes it for final: `CoordinatorProtocol.ClientStopsWithNothing` is an instance,
  `CoordinatorProtocol.ClientStopsEarlyExactly` the condition on one poll and
  `ClientTruth.AskStopsEarlyExactly` the condition in a run.
- The default of a relative put is honoured only by a database that reports a missing
  key as not found, which LMDB's adapter does not: `Semantics.DefaultNeedsNotFound`.
- The abort reason is not set when the contract decides to abort
  (src/cohort/cohort_server.cc:191); the model lets it be anything.

The design text says that the timer of a cohort runs out before it first asks for the
decision (paper/paper.tex:160-170); the code asks at once and sleeps afterwards. The
model follows the code.

## Model

| member | source | states |
|---|---|---|
| `SystemSafety.Agreement` | src/cohort/cohort_server.cc:188-300 | In every run, if some cohort's database committed a transaction, no cohort's database aborted it |
| `SystemSafety.CommonLockPoint` | src/cohort/cohort_server.cc:237-299 | While the decision is commit, each participant has on disk the request as sent and the results it has or publishes, and it has applied the decision or holds exactly its full lock sets with its database transaction open and all operations executed |
| `SystemSafety.DecisionsHold` | src/blockchain/contracts/TwoPhaseCommit.sol:80-138 | A commit or abort decision about a transaction sent to several cohorts is the same in every later state of every run |
| `SystemSafety.BallotsStay` | src/blockchain/contracts/TwoPhaseCommit.sol:39-64 | A ballot that the contract recorded in one state of a run is recorded in every later state: no reset erases it, no ballot overwrites it |
| `SystemSafety.AtMostOneHundredTwenty` | src/blockchain/contracts/TwoPhaseCommit.sol:39-41 | In every run a sent transaction has at least one and at most 120 participants |
| `SystemSafety.SafeStep` | src/cohort/cohort_server.cc:256-300 | Every step of the composed machine keeps: requests are an indexed split, ballots were cast by the participant at their index, recorded ballots were cast, cohorts follow the round, the decision order is exact, the resend flag covers what was sent |
| `SystemSafety.SafeRun` | src/cohort/cohort_server.cc:256-300 | That invariant holds in every state of every run |
| `SystemSafety.OneKindPerIndex` | src/cohort/cohort_server.cc:188-198 | No index ever casts both a commit and an abort ballot |
| `SystemSafety.CarriedParticipant` | src/blockchain/contracts/TwoPhaseCommit.sol:110-118 | When all ballots are commit, every participant promised, none dropped, and each waits in hand or has applied |
| `SystemSafety.AppliedIsCarried` | src/cohort/cohort_server.cc:292-299 | A database commit of a shared transaction rests on a round with only commit ballots |
| `SystemSafety.SubmitSafe` | src/coordinator/coordinator_server.cc:115-160 | A submission, accepted or not, reported truthfully or not, keeps the invariant |
| `SystemSafety.LocalSafe` | src/cohort/cohort_server.cc:256-300 | Any step of any cohort keeps the invariant |
| `SystemSafety.DeliverSafe` | src/blockchain/contracts/TwoPhaseCommit.sol:49-64 | Delivering any ballot ever cast, at any time, keeps the invariant |
| `SystemSafety.DeliverKeepsDecision` | src/blockchain/contracts/TwoPhaseCommit.sol:49-64 | Delivering any ballot ever cast keeps every final decision about a sent transaction |
| `SystemSafety.FirstToSend` | src/coordinator/coordinator_server.cc:126-160 | A submission that starts voting or sends anything is the first one to do so for its id |
| `Serializability.GlobalSerializability` | src/cohort/cohort_server.cc:256-300 | In every state of every run the decided transactions succeed one after the other in decision order on the first combined store, each once, with the Get results the cohorts have; once they are applied every cohort's store is its part of the serial store |
| `Serializability.SerializedStep` | src/cohort/cohort_server.cc:149-235 | Every step keeps the serial picture: each key's serial value is in the store, or in the buffer of the decided transaction that will write it |
| `Serializability.SerializedRun` | src/cohort/cohort_server.cc:149-235 | The serial picture holds in every state of every run |
| `Serializability.RunsSerially` | src/coordinator/coordinator_server.cc:90-112 | A client transaction whose parts are all ready succeeds as a whole on the serial store, with each part's buffer and results |
| `Serializability.DecideSerialized` | src/blockchain/contracts/TwoPhaseCommit.sol:110-118 | Deciding a transaction that is ready everywhere appends it to the serial run |
| `Serializability.ApplyStep` | src/cohort/cohort_server.cc:217-235 | A database commit, early or late against others, keeps the serial picture |
| `Serializability.CarriedIsReady` | src/blockchain/contracts/TwoPhaseCommit.sol:110-118 | When the last commit ballot arrives, every participant has executed its part and holds its locks |
| `Serializability.OnlyDecidedApplied` | src/cohort/cohort_server.cc:188-235 | What a database committed was decided, what a database aborted was not |
| `Serializability.SettledStore` | src/cohort/cohort_server.cc:217-235 | With nothing left to apply a cohort's store is its slice of the serial store |
| `ClientTruth.AbortedReplyIsTrue` | src/coordinator/coordinator_server.cc:278-283 | After an aborted reply, in no later state of the run has any database committed the transaction |
| `ClientTruth.CommittedReplyIsSerial` | src/coordinator/coordinator_server.cc:285-320 | A complete committed reply means every participant's database committed, and it holds from each cohort exactly the Get results of the client's transaction at its serial position |
| `ClientTruth.HonestStep` | src/coordinator/coordinator_server.cc:328-384 | Every step keeps that complete replies are true and unfinished records match what the cohorts published |
| `ClientTruth.HonestRun` | src/coordinator/coordinator_server.cc:328-384 | That holds in every state of every run |
| `ClientTruth.CompleteStaysInRun` | src/coordinator/coordinator_server.cc:331-336 | A complete reply is the same in every later state of the run |
| `ClientTruth.AskShared` | src/coordinator/coordinator_server.cc:353-384 | A poll of a shared transaction keeps replies true |
| `ClientTruth.AskSingle` | src/coordinator/coordinator_server.cc:241-276 | A poll of a transaction at one cohort keeps replies true |
| `ClientTruth.DoomedNeverApplied` | src/cohort/cohort_server.cc:188-235 | A transaction that the contract or its only cohort aborted is applied nowhere |
| `ClientTruth.StrictSerializability` | src/coordinator/coordinator_server.cc:285-320 | A transaction first sent after the client held a complete commit reply for another one comes after it in the serial order of every later state |
| `ClientTruth.OrderGrows` | src/blockchain/contracts/TwoPhaseCommit.sol:110-118 | The decision order of a later state extends that of an earlier one |
| `ClientTruth.ToldAbortIsTrue` | src/coordinator/coordinator_server.cc:328-384 | When a client that asks is told of an abort, in no later state has any database committed |
| `ClientTruth.ToldCommitIsSerial` | src/coordinator/coordinator_server.cc:328-384 | When a client that asks is told of a complete commit, every participant's database has committed and the reply holds from each cohort the results of the serial position |
| `ClientTruth.ToldCommitIsTrue` | src/coordinator/coordinator_server.cc:376-381 | Even an incomplete commit that a client is told is never contradicted by an abort in any later state |
| `ClientTruth.ToldIsToldAgain` | src/coordinator/coordinator_server.cc:331-336 | Whoever asks after a final reply was told is told the same reply |
| `ClientTruth.ToldPendingIsOpen` | src/coordinator/coordinator_server.cc:366-369 | A client is told pending only while the reply is not complete |
| `ClientTruth.AskStopsEarlyExactly` | src/coordinator/coordinator_server.cc:376-381 | In every run, a client asking about a shared transaction stops on a reply without a status if and only if the commit is carried and known to the coordinator while no participant has answered and none that is reached has published |
| `ClientTruth.CertaintyLostExactly` | src/coordinator/coordinator_server.cc:322-326 | In a given state, a submission after an aborted reply undoes what made the abort certain if and only if the contract opens a new round that was reported or that the abort rested on, or, for one cohort, the request goes to a cohort that has not aborted |
| `Resubmission.AbortStandsExactly` | src/coordinator/coordinator_server.cc:126-160 | For every submission and every later contract time: over all runs up to it in which the client was told aborted and all continuations, no database commits the transaction, if and only if the abort time is refused, there is nothing to do, or it is for several cohorts and the start does not reach the contract or is not accepted there |
| `Resubmission.AbortStandsForCallers` | src/coordinator/coordinator_server.cc:126-160 | However the start fares, aborted replies survive if and only if the abort time is refused, there is nothing to do, or it is for several cohorts and the contract would not accept the start |
| `Resubmission.ClosedStands` | src/coordinator/coordinator_server.cc:135-157 | A submission that does not reopen leaves the transaction uncommitted for ever |
| `Resubmission.SharedBreaks` | src/blockchain/contracts/TwoPhaseCommit.sol:39-46 | Every shared submission that reopens has a run in which the ballots came too late for the first round, the client was told aborted, and the same ballots carry the second round to a database commit |
| `Resubmission.SoleBreaks` | src/cohort/cohort_server.cc:256-276 | Every submission to one cohort that reopens has a run in which the cohort refused the first request, the client was told aborted, and the cohort serves the second request to a database commit |
| `Resubmission.AbortedThenCommitted` | src/coordinator/coordinator_server.cc:322-326 | An instance with two puts at two cohorts |
| `Repetition.CommitsOnceExactly` | src/coordinator/coordinator_server.cc:322-326 | For every submission after a complete commit reply: over all runs up to it and all continuations, no database commits the transaction twice, if and only if the requests do not go out again |
| `Repetition.CommitsOnceForCallers` | src/coordinator/coordinator_server.cc:126-160 | The same in the caller's terms: if and only if the abort time is refused, there is nothing to do, or it is for several cohorts and the contract would not accept the start |
| `Repetition.UnsentOnce` | src/cohort/cohort_server.cc:256-300 | If the requests do not go out again, every cohort has the transaction in its log at most once for ever |
| `Repetition.SharedTwice` | src/cohort/cohort_server.cc:256-300 | Every shared submission that sends again has a run in which all commit, the client is told, a cohort serves the second request and its database commits a second time |
| `Repetition.SoleTwice` | src/cohort/cohort_server.cc:256-276 | Every submission to one cohort that sends again has such a run |
| `Progress.EverybodyCanCommit` | src/blockchain/contracts/TwoPhaseCommit.sol:39-41 | For every operation list over 1 to 120 addresses, however split and indexed, there is a run in which all their databases commit it |
| `Progress.CohortCanFinish` | src/cohort/cohort_server.cc:256-300 | From every reachable state, a transaction in hand at a cohort can come to a published reply by the cohort's own steps and the passing of time |
| `Progress.AllCanPublish` | src/cohort/cohort_server.cc:292-299 | Once a commit is carried, all participants can publish |
| `Progress.ClientCanLearn` | src/coordinator/coordinator_server.cc:328-384 | From every state of every run, the reply about a sent transaction can be completed, by time, the cohorts' own steps and asking |
| `CohortProofs.LocalSerializability` | src/cohort/cohort_server.cc:188-235 | After any interleaving, in both locking modes, the store is the replay of the committed transactions in commit order with their recorded Get results, each once; published replies carry those results; aborted ones left no trace |
| `CohortProofs.InvStep` | src/cohort/cohort_server.cc:38-344 | Every step of a cohort keeps the lock table, exclusion, exactness of every open transaction against the current store, the history and the log |
| `CohortProofs.InvRun` | src/cohort/cohort_server.cc:256-300 | The cohort invariant holds after every run |
| `CohortProofs.LockConservation` | src/cohort/cohort_server.cc:323-344 | In every reachable state the holders of a lock are exactly the running transactions that list it, one writer or only readers; a finished transaction holds none |
| `CohortProofs.ReleaseIsExact` | src/cohort/cohort_server.cc:323-338 | Releasing removes all locks of the transaction and no other |
| `CohortProofs.LocksCoverAccesses` | src/cohort/cohort_server.cc:80-111 | The read and write lock sets are disjoint and every Get or Put hits a lock in a sufficient mode |
| `CohortProofs.LocksAre` | src/cohort/cohort_server.cc:41-92 | Which locks an operation list takes in either mode, key by key |
| `CohortProofs.WritesAreAlone` | src/cohort/cohort_server.cc:80-111 | Two fully locked transactions never share a key that one of them writes |
| `CohortProofs.CommitFrame` | src/cohort/cohort_server.cc:217-235 | One transaction's commit does not change what another has executed so far |
| `CohortProofs.ApplyRuns` | src/cohort/cohort_server.cc:217-229 | Committing a buffer, whatever committed in between, is running the operations on the current store |
| `CohortProofs.NoEarlyExposure` | src/cohort/cohort_server.cc:312-344 | A reply is pending until the database outcome is fixed and then says what the database did |
| `CohortProofs.PublishedIsPersisted` | src/cohort/cohort_server.cc:237-254 | A transaction that cast a commit ballot has its request and its Get results on disk, and its published commit reply is the persisted one |
| `CohortProofs.AnswersAreFinal` | src/cohort/cohort_server.cc:312-321 | A published reply never changes |
| `CohortProofs.AdapterNeverMisused` | src/cohort/cohort_server.cc:149-164 | No reachable Begin, operation or Commit finds the adapter in the wrong state; no Put is refused as read-only |
| `CohortServer.LockKeys` | src/cohort/cohort_server.cc:80-92 | The one-pass loop yields exactly the put keys and the get keys never put |
| `CohortServer.LockKinds` | src/cohort/cohort_server.cc:41-53 | The early-exit loop finds whether there is a put and whether there is a get |
| `CohortServer.Server.constructor` | src/cohort/cohort_server.h:31-38 | A new server is the fresh machine state |
| `CohortServer.Server.AcquireReaderLocks` | src/cohort/cohort_server.cc:94-102 | Takes read locks one by one under interference and lists what it got; alone, it gets all exactly if each is granted and had no writer |
| `CohortServer.Server.AcquireWriterLocks` | src/cohort/cohort_server.cc:103-111 | Takes write locks one by one under interference and lists what it got; alone, it gets all exactly if each is granted and nobody held it |
| `CohortServer.Server.AcquireDbLocks` | src/cohort/cohort_server.cc:38-113 | Ends with all locks or reports the deadline; alone, it succeeds exactly if every needed lock could be had, own read locks never block own write locks |
| `CohortServer.Server.ProcessOperationInDb` | src/cohort/cohort_server.cc:115-147 | One operation through the adapter is one operation of buffered execution, with the same failure; what that is, `Semantics.RunLaw` spells out |
| `CohortServer.Server.BeginInDb` | src/cohort/cohort_server.cc:154-159 | Opens read-only exactly when no write lock is held |
| `CohortServer.Server.ProcessTransactionInDb` | src/cohort/cohort_server.cc:149-164 | Ends with all operations executed or an error before the last one; alone, it reports exactly the first obstacle: locks, then the first failing operation |
| `CohortServer.Server.ExecuteNext` | src/cohort/cohort_server.cc:160-162 | Whatever others committed meanwhile, the next operation fails exactly as it does after the earlier ones on the store as it is now |
| `CohortServer.Server.CommitTransaction` | src/cohort/cohort_server.cc:217-235 | Commits after as many passes as there were passing failures plus one, publishes the Get results, releases everything; alone, the store changes as running the operations does |
| `CohortServer.Server.AbortTransaction` | src/cohort/cohort_server.cc:188-215 | Casts an abort ballot exactly when it has a status of its own, publishes the reason that goes with the status, releases everything |
| `CohortServer.Server.ReleaseLocksAndDeleteMetadata` | src/cohort/cohort_server.cc:323-344 | Moves the reply from the metadata to the published replies and is a release step |
| `CohortServer.Server.PersistTransaction` | src/cohort/cohort_server.cc:237-254 | Writes the results, then the request, exactly as far as the writes succeed, and reports Internal otherwise |
| `CohortServer.Server.CastCommit` | src/cohort/cohort_server.cc:285-291 | Casts one commit ballot with the request's index, after persisting |
| `CohortServer.Server.VoteAndFollow` | src/cohort/cohort_server.cc:285-299 | Casts the ballot, waits, and follows the first final decision read: a commit publishes the results, an abort changes nothing |
| `CohortServer.Server.ProcessTransaction` | src/cohort/cohort_server.cc:256-300 | Under any interference a whole call is a run of the machine that keeps the invariant and ends by refusing with one abort ballot, committing alone without a ballot, or persisting, casting one commit ballot and following the decision it waited for with the persisted results; alone, its outcome is determined: store, reply, ballots, locks and other transactions |
| `CohortServer.Server.GetTransactionResult` | src/cohort/cohort_server.cc:312-321 | Answers the published reply, pending before |
| `CohortServer.SameTransactionsSameLocks` | src/cohort/cohort_server.cc:323-344 | The lock table is determined by the running transactions |
| `CohortServer.AloneCommitsExactlyWhen` | src/cohort/cohort_server.cc:256-300 | A call that nobody interrupts commits if and only if every lock is granted and free, the database does not fail, the operations succeed on the store and, unless alone, both files are written and the decision is commit; otherwise the reply names the first obstacle |
| `CohortServer.AloneAddsUp` | src/cohort/cohort_server.cc:140-143 | After such a commit a key that is only put relatively holds its old value plus all deltas |
| `CohortServer.FirstErrorIsRun` | src/cohort/cohort_server.cc:160-162 | The first error of the operations in their transaction is that of running them directly |
| `CohortServer.AloneEnds` | src/cohort/cohort_server.cc:323-344 | A transaction that came and went alone left the lock table and every other transaction as they were |
| `Waiting.WaitForBlockchainDecision` | src/cohort/cohort_server.cc:166-186 | Returns the first final decision read and stops there; counts the successful reads |
| `Waiting.TwoReadsSuffice` | src/cohort/cohort_server.cc:166-186 | With a round that times out at the abort time, at most two reads succeed before the wait ends |
| `Waiting.BoundedWaiting` | src/cohort/cohort_server.cc:166-186 | In every run, any participant that asks once, sleeps to its abort time and asks again uses at most two successful reads, and each read after the first is final, whatever others do |
| `Waiting.DecidedAtAbortTime` | src/blockchain/contracts/TwoPhaseCommit.sol:122-130 | In every state of every run at or after a participant's abort time the contract has decided |
| `Waiting.TimeoutIsFloorOfAbortTime` | src/coordinator/coordinator_server.cc:53-72 | For every accepted submission to several cohorts the contract's timeout is the cohorts' abort time rounded down to seconds, so at the abort time the round has timed out; which time that is, `CoordinatorProtocol.CommitReplyIs` says |
| `Waiting.TimestampRoundTrip` | src/coordinator/coordinator_server.cc:65-71 | Seconds and nanoseconds recover the time, and the seconds are its floor |
| `CoordinatorServer.GroupByAddress` | src/coordinator/coordinator_server.cc:93-99 | One group per address with its operations in order and its last namespace |
| `CoordinatorServer.SplitClientTransaction` | src/coordinator/coordinator_server.cc:90-112 | The result is a split: one sub-transaction per address, none missing or twice |
| `CoordinatorProtocol.SplittingPreservesMeaning` | src/coordinator/coordinator_server.cc:90-112 | The operations succeed in order on the combined store if and only if every sub-transaction succeeds on its own store; then stores and Get results agree per cohort and no other cohort changes |
| `Semantics.SplitSuccess` | src/coordinator/coordinator_server.cc:94-99 | A successful combined run is, at each address, the run of that address's operations |
| `Semantics.SplitSuccessIff` | src/coordinator/coordinator_server.cc:94-99 | The combined run succeeds if and only if the run at every address does |
| `Semantics.RunLaw` | src/cohort/cohort_server.cc:115-147 | What one more operation does, spelled out: a get reports the value of its key, a constant put sets it, a relative put adds to it or to its default, a missing key fails with the database's status |
| `Semantics.GRunLaw` | src/cohort/cohort_server.cc:115-147 | The same on the combined store |
| `Semantics.RunFailureLaw` | src/cohort/cohort_server.cc:160-162 | The first failure is the outcome of the whole list |
| `Semantics.RelativePutsAddUp` | src/cohort/cohort_server.cc:140-143 | A key that is only put relatively ends at its first value plus the sum of the deltas |
| `Semantics.GRelativePutsAddUp` | src/cohort/cohort_server.cc:140-143 | So do the keys of every cohort under a whole client transaction |
| `Semantics.LastConstantDecides` | src/cohort/cohort_server.cc:128-131 | The last constant put of a key decides its value, up to later deltas |
| `Semantics.UnputKeysStay` | src/cohort/cohort_server.cc:127-144 | A key that is not put keeps its value or stays missing |
| `Semantics.BufferingIsInvisible` | src/cohort/cohort_server.cc:115-147 | Running into a private buffer and committing it is running directly, failures included |
| `Semantics.BufferWithinPuts` | src/cohort/cohort_server.cc:127-144 | Only put keys enter the buffer |
| `Semantics.ExecFrame` | src/cohort/cohort_server.cc:115-147 | Execution depends on the store only through the keys it touches |
| `Semantics.DefaultNeedsNotFound` | src/cohort/cohort_server.cc:132-143 | On a missing key a relative put with a default succeeds if and only if the database reports not-found; with LMDB it fails |
| `CoordinatorServer.Server.constructor` | src/coordinator/coordinator_server.h:47-51 | A new server knows nothing |
| `CoordinatorServer.Server.SendCohortPrepareRequests` | src/coordinator/coordinator_server.cc:162-190 | Sends each part once under its index, records every namespace, raises the flag |
| `CoordinatorServer.Server.CommitAtomicTransaction` | src/coordinator/coordinator_server.cc:115-160 | Computes `Commit`, replies included, on a split of the operations |
| `CoordinatorServer.Server.CleanUpTransactionMetadata` | src/coordinator/coordinator_server.cc:322-326 | Marks the reply complete and forgets the record |
| `CoordinatorServer.Server.UpdateResponseForSingleCohortTransaction` | src/coordinator/coordinator_server.cc:241-276 | Computes `PollSingle` |
| `CoordinatorServer.Server.UpdateCommittedResponseFromCohorts` | src/coordinator/coordinator_server.cc:285-320 | The counting loop computes `PollCommitted` |
| `CoordinatorServer.Server.UpdateAbortedResponseFromCohorts` | src/coordinator/coordinator_server.cc:278-283 | Finishes with an aborted reply |
| `CoordinatorServer.Server.GetTransactionResult` | src/coordinator/coordinator_server.cc:328-384 | Computes `Poll`, replies included |
| `CoordinatorProtocol.SendsExactlyWhen` | src/coordinator/coordinator_server.cc:126-190 | Prepares go out if and only if the flag is down, the time is not past, there is something to do and voting started unless one cohort is alone; indices are 0 to n-1 and the round is for n cohorts |
| `CoordinatorProtocol.CommitReplyIs` | src/coordinator/coordinator_server.cc:131-159 | What the client is told and which abort time counts: the kept one with the flag up, else the one asked for or the default from now; past, not started or accepted exactly when; told, stored, sent to every cohort and given to the contract it is one time |
| `CoordinatorProtocol.AbortTimeIsKept` | src/coordinator/coordinator_server.cc:131-134 | After any calls that complete no reply, a submission again is told the abort time of the one that sent |
| `CoordinatorProtocol.CommitIsSound` | src/coordinator/coordinator_server.cc:126-190 | A submission concerns its own id only, starts voting or sends only while the flag is down, and sends each sub-transaction under its index with the round timing out in the second of its abort time |
| `CoordinatorProtocol.NoResendUntilComplete` | src/coordinator/coordinator_server.cc:126-134 | After any sequence of calls that completed no reply, a submission of a sent id neither starts voting nor prepares |
| `CoordinatorProtocol.FlagStays` | src/coordinator/coordinator_server.cc:131-134 | The flag survives every call that does not complete the transaction |
| `CoordinatorProtocol.ResubmissionAfterCompletion` | src/coordinator/coordinator_server.cc:322-326 | An instance in which the same request goes out a second time after a complete reply |
| `CoordinatorProtocol.OverlapSendsTwice` | src/coordinator/coordinator_server.cc:126-189 | A second submission that would send alone sends during a first one if and only if the first has not come to its last request: behind the guard or with j requests dealt with; then it sends and starts what it would alone |
| `CoordinatorProtocol.CompleteIsForever` | src/coordinator/coordinator_server.cc:331-336 | No sequence of calls changes a complete reply |
| `CoordinatorProtocol.CompleteIsToldForever` | src/coordinator/coordinator_server.cc:331-336 | After any calls, a poll about a complete transaction tells the complete reply |
| `CoordinatorProtocol.PollTellsWhatIsStored` | src/coordinator/coordinator_server.cc:328-384 | A commit, an abort or a complete reply that is told is the stored one; pending is told only of what is not complete |
| `CoordinatorProtocol.PollReplyIs` | src/coordinator/coordinator_server.cc:337-384 | The reply to a poll, case by case, while the transaction is not complete |
| `CoordinatorProtocol.CollectAppends` | src/coordinator/coordinator_server.cc:292-314 | One pass appends the new results to those told before, in the order of the cohorts |
| `CoordinatorProtocol.CollectIsExact` | src/coordinator/coordinator_server.cc:291-314 | One pass adds each newly answered cohort's results once, and the count is full exactly when all have answered |
| `CoordinatorProtocol.AccumulationStarts` | src/coordinator/coordinator_server.cc:162-190 | The submission that sends puts the record in the accumulating state, also after polls and submissions that left an empty record |
| `CoordinatorProtocol.EmptyRecordStays` | src/coordinator/coordinator_server.cc:126-160 | A record without answers stays so under polls that read no final decision, submissions that send nothing and calls about other ids |
| `CoordinatorProtocol.AccumulationStep` | src/coordinator/coordinator_server.cc:285-320 | One poll keeps the accumulating state |
| `CoordinatorProtocol.ExactlyOnce` | src/coordinator/coordinator_server.cc:285-384 | After any sequence of calls the reply holds each answered cohort's results exactly once; it is complete only with all cohorts, incomplete only with one missing |
| `CoordinatorProtocol.ClientStopsEarlyExactly` | src/client/client.cc:22-32 | The client stops on an incomplete reply if and only if the decision is commit and no cohort has answered so far; that reply has no status |
| `CoordinatorProtocol.ClientStopsWithNothing` | src/coordinator/coordinator_server.cc:376-381 | An instance with two cohorts that cannot be reached |
| `Voting.VoteKeepsDecisionExactly` | src/blockchain/contracts/TwoPhaseCommit.sol:49-64 | An accepted ballot keeps a final decision if and only if it does not take back the only ballot it rests on |
| `Voting.OverwritingBallotFlipsDecision` | src/blockchain/contracts/TwoPhaseCommit.sol:59-63 | An instance in which an overwritten ballot turns abort into commit |
| `Voting.RestartLosesDecision` | src/blockchain/contracts/TwoPhaseCommit.sol:39-46 | A start-voting call keeps a final decision if and only if it is rejected |
| `Voting.SameKindKeepsDecision` | src/blockchain/contracts/TwoPhaseCommit.sol:49-64 | A ballot of the kind an index already cast, or its first, keeps every final decision |
| `Voting.DecisionIsStable` | src/blockchain/contracts/TwoPhaseCommit.sol:49-138 | Over every sequence of late, repeated and rejected calls in which the accepted ballots of an index are of one kind, a final decision never changes |
| `Base3.DecodeEncode` | src/blockchain/contracts/TwoPhaseCommit.sol:145-165 | Decoding the word of an array gives the array |
| `Base3.EncodeDecode` | src/blockchain/contracts/TwoPhaseCommit.sol:145-165 | Encoding the array of a word below 3^n gives the word |
| `Base3.EncodeUpdate` | src/blockchain/contracts/TwoPhaseCommit.sol:150-155 | Subtracting one digit and adding another is updating one array entry |
| `Base3.DigitIsBallot` | src/blockchain/contracts/TwoPhaseCommit.sol:158-165 | Dividing by a power and taking the remainder reads one array entry |
| `Base3.PowersFit` | src/blockchain/contracts/TwoPhaseCommit.sol:40-40 | With at most 120 cohorts three times every power fits a 256-bit word |
| `TwoPhaseCommitContract.WordRefinesArray` | src/blockchain/contracts/TwoPhaseCommit.sol:145-165 | For every word below 3^n and n up to 120, wrapping arithmetic reads entry i, writes entry i and no other, and stays below 3^n |
| `TwoPhaseCommitContract.DigitsFit` | src/blockchain/contracts/TwoPhaseCommit.sol:151-154 | Neither the subtraction nor the addition leaves the range of the word |
| `TwoPhaseCommitContract.TwoPhaseCommit.constructor` | src/blockchain/contracts/TwoPhaseCommit.sol:21-24 | A new contract has no rounds |
| `TwoPhaseCommitContract.TwoPhaseCommit.StartVoting` | src/blockchain/contracts/TwoPhaseCommit.sol:31-46 | Accepts exactly 1 to 120 cohorts with a timeout still to come, and then the stored word stands for an empty round of that size and timeout; nothing else changes |
| `TwoPhaseCommitContract.TwoPhaseCommit.Vote` | src/blockchain/contracts/TwoPhaseCommit.sol:49-64 | Accepts exactly when the round is known and open, the index in range and the ballot a vote, and then the stored word stands for the array with that entry replaced |
| `TwoPhaseCommitContract.TwoPhaseCommit.GetVotingDecision` | src/blockchain/contracts/TwoPhaseCommit.sol:80-138 | The early-exit tally equals the declarative rule with its reason; an unknown transaction reverts |
| `TwoPhaseCommitContract.ReasonsAre` | src/blockchain/contracts/TwoPhaseCommit.sol:98-137 | The four decisions with their reasons, in words |
| `TwoPhaseCommitContract.AnswerIs` | src/blockchain/contracts/TwoPhaseCommit.sol:167-183 | The answer is a digit, a colon and the reason |
| `TwoPhaseCommitContract.WordsWrap` | src/blockchain/contracts/TwoPhaseCommit.sol:150-155 | Words have 256 bits and wrap below zero and above |
| `AdapterServer.DecodeInvertsSerialize` | src/blockchain/client/adapter_server.js:59-76 | Decoding the answer string recovers option and reason, for every reason text |
| `AdapterServer.OnlyDigitsDecode` | src/blockchain/client/adapter_server.js:63-74 | An answer decodes to a known option exactly if it begins with one of the contract's three digits |
| `AdapterServer.BallotCodeIsTheDigit` | src/blockchain/client/adapter_server.js:42-50 | The adapter's number for a ballot is the digit that the contract stores for it |
| `AdapterServer.ServersSeeTheDecision` | src/blockchain/client/adapter_server.js:59-76 | What a server sees is the decision rule on the ballots |
| `Database.ProcessOperationIsExec` | src/db/lmdb_database_transaction_adapter.cc:76-113 | With a suitably opened transaction the adapter does what buffered execution does and reports no misuse |
| `Database.LmdbAdapter.constructor` | src/db/lmdb_database_transaction_adapter.cc:19-23 | A new adapter is closed |
| `Database.LmdbAdapter.Begin` | src/db/lmdb_database_transaction_adapter.cc:31-41 | Opens for writing with an empty buffer, or refuses and changes nothing when open |
| `Database.LmdbAdapter.BeginReadOnly` | src/db/lmdb_database_transaction_adapter.cc:43-54 | Opens read-only, or refuses and changes nothing when open |
| `Database.LmdbAdapter.Commit` | src/db/lmdb_database_transaction_adapter.cc:56-64 | Overwrites the committed values with the buffer and closes, or refuses when closed |
| `Database.LmdbAdapter.Abort` | src/db/lmdb_database_transaction_adapter.cc:66-74 | Closes and leaves the committed values, or refuses when closed |
| `Database.LmdbAdapter.Get` | src/db/lmdb_database_transaction_adapter.cc:76-91 | Own writes first, then committed values, Internal for a missing key, refused when closed |
| `Database.LmdbAdapter.Put` | src/db/lmdb_database_transaction_adapter.cc:93-113 | Adds to the buffer, refuses when closed or read-only, reports Internal and changes nothing when the library does not store |
| `Database.LmdbAdapter.ReleaseTransaction` | src/db/lmdb_database_transaction_adapter.cc:115-118 | Leaves the adapter closed |

## Left out

- ClientTruth.CertaintyLostExactly: states when the ground for an abort is lost in one state, not that a database commits; `Resubmission.AbortStandsExactly` states that over all continuations.
- gRPC stubs, channels, contexts, flags, mains and scripts: plumbing.
- SHA-256 transaction ids (src/coordinator/coordinator_server.cc:36-88): a foreign library; ids are taken as given.
- LMDB internals and its exceptions: the database is a committed map and a private buffer; a failure of its own is a parameter of the methods.
- 64-bit overflow of the sum in a relative put, and the saturation of library times: integers are unbounded.
- How long lock waits take and whether they can block each other: a lock is granted or not before the deadline, and the deadline is the mutex library's.
- Adapter calls that are never answered (src/blockchain/client/contract_client.js:24-38): progress, not safety.
- Recovery of a crashed cohort or coordinator: not implemented by the repository.
- Submit: the composed machine takes one submission as one step, so overlapping submissions of one id are not part of a composed run; `CoordinatorProtocol.OverlapSendsTwice` says what they do.
- C++ memory effects, such as references into a map that is rehashed by another thread.
- The text of error messages and the conversion of status codes (src/utils/status_utils.cc): trivial.
- The client program, its random requests, `setMockNow`, heartbeats and Migrations.sol: drivers, mocks and deployment.
- A second request for an id that the cohort is still processing: two threads then share one record, which is undefined in the code; `Runs.dfy` takes second requests for published ids only.
- Files that a failed write leaves truncated: a failed write leaves the earlier content.
