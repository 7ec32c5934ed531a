# Verification of the AgentConnect work queue and its neighbours

A Dafny model of the federated work queue (`common/workqueue.py`) with the transition
authority it drives, and of five smaller cores: UTF-8-safe paging, quota reservation, the
event log and its tail, the execution-record ledger, and span redaction. Paths below are
relative to the repository root. `dafny verify dfyconfig.toml` checks everything.

## How it is laid out

**The queue.** `TicketStore` holds the tables as one value and every guarded statement as
a function on it. A `Commit` is one guarded write with its audit row; a history is any
sequence of commits, so a crash between any two of them is a shorter history.
`QueueInvariants` proves what every commit keeps, `QueueHistories` what holds over whole
histories, `Progress` that work which waits waits for something.

**The object.** `WorkQueue` is a class with the tables as fields and one method per
operation, each proved against what the operation promises. It opens on the empty store or
on any store with the base invariant, and its `Valid()` says that the fields are what a
ghost history of commits has made of that store. So what every commit keeps holds in
every state of the object, and of one opened empty every theorem about histories holds. `Fallout`, `Worklist` and `Reaping` say what a cascade and a
reaper pass amount to, independently of the worklists that compute it; `ClaimOrder` does so
for the batch claim. `Promises` and `Outcomes` say once more, of the columns alone, what the
operations have to do; no statement of the queue is built from them, the methods promise them. `HistoryExamples` reaches the states the theorems leave open.

**Several processes.** `SplitSteps` cuts each operation into its read and its guarded
write, with other processes in between and a crash possible at any point. `SplitRuns` proves
fencing, the verification gate, acyclicity and no laundering over all runs; `SplitHistories`
says exactly when the audit chain and the claim budget survive stale readings, and
`SplitExamples` reaches the states in which they do not. `SplitRefinement` shows that every
atomic history is the store of a split run.

**The rest.** `Transitions` and `TaskStates` are the transition authority and the task
state machine; `Privacy` the tier and class rule; `MemoryArtifacts`, `Utf8Paging`, `Quota`,
`QuotaRuns`, `EventLog`, `ExecutionLedger` and `Redaction` the smaller cores.

## What turned out not to hold

- **A stale cancel can take a live lease away.** `cancel_for_task` reads its rows, then
  updates them guarded, but records and cascades from every row it read. If one became
  done in between, its UPDATE matches nothing and the cascade still fails the dependents,
  even one that is claimed. `RecordedCancelIsDeadIff` is the exact condition,
  `SplitCascadeSafety` the safety that holds otherwise, `StaleCancelReachable` a run.
  It needs a second process: under the store lock it cannot happen.
- **A stale rejection can requeue beyond the budget.** The claim bound holds of a ticket
  throughout a run exactly when no rejection of it was a stale requeue (`SplitBudgetIff`);
  `StaleRejectReachable` reaches one.
- **A stale cancel or cascade breaks the audit chain.** The audit rows of a ticket replay
  to its status exactly as long as none was written from a stale reading
  (`SplitAuditReplaysIff`); `StaleAuditReachable` is a run whose audit ends wrong.
- **"Already terminal" can be false** of a task cancel: exactly when all three
  compare-and-sets missed and the task is still live (`AlreadyTerminalIsExact`,
  `AlreadyTerminalCanBeFalse`).
- **The declared ticket vocabulary is not the step relation** (`WarnedSteps`): parking a
  claimed ticket and failing an open one are outside it, parked to open is in it and never
  happens. The model follows the UPDATE statements.
- **`link` accepts a child that is done**, so a done ticket may get an unfinished parent.
  That is the only way it can (`LinkBreaksDoneOverDoneIff`, `DoneOverDoneIff`), and it is
  reached (`DoneOverOpenReachable`); the claim that parents are done is therefore made for
  tickets in flight only.
- **An open ticket of a cancelled task** that `cancel_for_task` was never called for waits
  for ever: exactly until a cancel of it or a cascade to it (`TicketWaitsIff`,
  `WaitingTicketReachable`).
- **The reaper forgets a mirror.** A pass ends the tasks of the tickets it parks and of
  those that are done or failed after it, and no others (`ReapExpired`, `MovedIsSettled`).
  If an earlier pass crashed between parking a ticket and mirroring it, the task stays live
  (`ForgottenMirrorReachable`).
- **`max_attempts` below one** is not refused by `add`. The bounds are therefore stated
  with max(1, max_attempts), and hold for every value.
- **Quota reservations can overspend** when callers overlap, because the lock is free
  between check and insert and between pop and commit, and when a call is reconciled after
  its reservation has expired. `OverspendIsBounded` is the bound for any number of callers,
  `OverlapReachesBound` meets it, and `StepExceedsIff` with `RunWithinCapIff` says exactly
  which steps take the books over the cap.
- **A rewritten and resealed ledger passes** the chain walk, contrary to its comment
  (`ResealedIsIntact`); only a kept tail hash gives it away (`RewriteShowsInTail`).
- `_depends_transitively` says it is used by `link`, which in fact uses a recursive query
  in its INSERT; both are the same relation, so the model's `link` calls the worklist.

## Reading the model

Ids and tokens are numbers from a counter, tiers, classes and identities are strings,
times and money are reals. Rows of a query without ORDER BY come in any order; ties of an
ORDER BY are broken by insertion order. `cancel_for_task` and `reap_expired` write several
rows in one transaction; here each row is a commit of its own, which allows more crashes
than can happen. The same holds for a cascade step and the mirror of its outcome. A
ticket's four lease columns are one optional value. Environment steps of the log tail
(what others publish between polls) and of the locked writer (what others write between
its read and its write) are parameters.

## Model

| member | source | states |
|---|---|---|
| `Privacy.AdmissibleClasses` | packages/agentconnect-core/src/agentconnect/common/privacy.py:179-198 | the class list a claim is filtered by contains a class exactly when the attested tier is admitted for it; no tier, no class |
| `TaskStates.MirrorReach` | packages/agentconnect-core/src/agentconnect/common/workqueue.py:147-160 | from every live task state the mirror overlay may write each ticket outcome; out of a terminal state it may write nothing |
| `TaskStates.TaskFSM.constructor` | packages/agentconnect-core/src/agentconnect/common/state.py:87-89 | the wrapper starts with a one-element history |
| `TaskStates.TaskFSM.To` | packages/agentconnect-core/src/agentconnect/common/state.py:91-96 | moves along an edge and records it, or changes nothing; the history stays a walk of the machine |
| `TaskStates.PassesGate` | packages/agentconnect-core/src/agentconnect/common/state.py:27-84 | a walk that leaves a set of states whose edges lead back or to a gate has passed the gate |
| `TaskStates.PrivacyCheckFirst` | packages/agentconnect-core/src/agentconnect/common/state.py:27-84 | before its privacy check a task goes nowhere but to its cancellation |
| `TaskStates.ChecksBeforeReview` | packages/agentconnect-core/src/agentconnect/common/state.py:27-84 | no task comes to review or approval before its checks have run |
| `Transitions.DecideWrites` | packages/agentconnect-core/src/agentconnect/common/transitions.py:217-240 | each verb decides to write exactly the moves it is entitled to, and none out of a terminal value; `advance` asks no edge table |
| `Transitions.CallIsSound` | packages/agentconnect-core/src/agentconnect/common/memory.py:312-355 | whatever other processes write in between, an applied call overwrote exactly the value its decision saw, was entitled to the move and left one record of it; one that did not apply left no applied record |
| `Transitions.MissedIffAllMiss` | packages/agentconnect-core/src/agentconnect/common/memory.py:312-355 | the writer gives up exactly when each of its reads found something to write over and each had changed by the write |
| `Transitions.AlreadyTerminalIsExact` | packages/agentconnect-core/src/agentconnect/common/transitions.py:374-405 | "already terminal" is false exactly when every compare-and-set missed and the value read last is still live |
| `Transitions.AlreadyTerminalCanBeFalse` | packages/agentconnect-core/src/agentconnect/common/transitions.py:400-405 | such a false answer: a queued task that is walked on four edges meanwhile is reported terminal while its checks have run |
| `Transitions.UndisturbedCall` | packages/agentconnect-core/src/agentconnect/common/memory.py:312-355 | without other processes a call decides once and its decision lands |
| `Transitions.UndisturbedAnswer` | packages/agentconnect-core/src/agentconnect/common/transitions.py:217-405 | an undisturbed call, verb by verb: illegal exactly for a strict transition along no edge, applied exactly for a legal move, otherwise the row as it was and a refusal, a no-op or no record, said of edges, terminal and universal states alone |
| `Transitions.DisturbedAnswer` | packages/agentconnect-core/src/agentconnect/common/memory.py:312-355 | under interference the same is true of the value last read; a call that gives up leaves no record |
| `Transitions.StateTable.StrictTransition` | packages/agentconnect-core/src/agentconnect/common/transitions.py:214-247 | the strict verb as its caller sees it: unknown, at its destination, refused or illegal, each exactly when it applies to an undisturbed row; disturbed, an illegal edge is true of the stored value, and a refusal is of a terminal one unless every write missed |
| `Transitions.StateTable.TransitionTask` | packages/agentconnect-core/src/agentconnect/common/memory.py:293-355 | the retrying locked writer: undisturbed it answers illegal exactly for a strict transition of a live value along no edge, applies exactly the legal moves, and leaves the record its verb leaves; disturbed, an illegal answer is true of the value reported; no other row is touched |
| `TicketStore.AuthorityIsUndisturbed` | packages/agentconnect-core/src/agentconnect/common/memory.py:312-355 | the one-step authority of the commits is the locked writer with nobody in between: same row, same records |
| `Transitions.LandedWriteIsEntitled` | packages/agentconnect-core/src/agentconnect/common/transitions.py:141-170 | in any interleaving, foreign writers included, a landed write replaced the value that was seen, which was not terminal |
| `Transitions.DisciplinedRun` | packages/agentconnect-core/src/agentconnect/common/transitions.py:199-405 | over whole runs of transition, converge and cancel: the audit log replays to the stored value, every move is an edge, an overlay edge or a cancellation, a terminal value stays |
| `DependencyGraph.AddEdgeAcyclic` | packages/agentconnect-core/src/agentconnect/common/workqueue.py:965-986 | the link guard is exact: an edge keeps the dependencies acyclic if and only if there is no path back |
| `DependencyGraph.AddSourceAcyclic` | packages/agentconnect-core/src/agentconnect/common/workqueue.py:346-350 | the edges of a fresh ticket close no cycle |
| `DependencyGraph.DependsTransitively` | packages/agentconnect-core/src/agentconnect/common/workqueue.py:1299-1315 | the stack-and-seen worklist terminates on any edge set and answers exactly whether a path exists |
| `QueueInvariants.CommitIsRowStep` | packages/agentconnect-core/src/agentconnect/common/workqueue.py:113-125 | every UPDATE is one step of the real status relation, audited in its own commit; a requeue decided on the row it updates leaves an attempt |
| `QueueInvariants.WarnedSteps` | packages/agentconnect-core/src/agentconnect/common/workqueue.py:113-137 | the audit warning about the declared vocabulary fires exactly on claimed to parked and open to failed, and parked to open never happens |
| `QueueInvariants.CommitMoves` | packages/agentconnect-core/src/agentconnect/common/workqueue.py:479-501 | only a claim brings a ticket to claimed, only a report to review, only a report or a local_only approval to done |
| `QueueInvariants.CommitKeepsInv` | packages/agentconnect-core/src/agentconnect/common/workqueue.py:479-986 | every commit keeps: leases only where a lease belongs and of an admitted tier, both ends of every edge, no downgrade along an edge, no cycle, all parents of a ticket in flight done, keys unique |
| `QueueInvariants.AnyHistoryKeepsInv` | packages/agentconnect-core/src/agentconnect/common/workqueue.py:250-1366 | so after any history of commits, cut off anywhere by a crash, all of that holds |
| `QueueInvariants.AnyHistoryFromKeepsInv` | packages/agentconnect-core/src/agentconnect/common/workqueue.py:250-1366 | the same from any store with the base invariant, whoever left it |
| `QueueInvariants.NoLaundering` | packages/agentconnect-core/src/agentconnect/common/workqueue.py:297-317 | the tier that holds or held a ticket is admitted for its class and for the class of every transitive dependency, whatever the cached column says |
| `QueueInvariants.CascadeNeverHitsLease` | packages/agentconnect-core/src/agentconnect/common/workqueue.py:1317-1364 | a dependent of a dead ticket is open or parked and holds no lease |
| `QueueInvariants.LinkBreaksDoneOverDoneIff` | packages/agentconnect-core/src/agentconnect/common/workqueue.py:943-997 | a commit gives a done ticket an unfinished parent, where done tickets had none, exactly when it is a link from a done child to an unfinished parent |
| `QueueInvariants.DoneOverDoneIff` | packages/agentconnect-core/src/agentconnect/common/workqueue.py:943-997 | over whole histories: done tickets had done parents throughout exactly when no such link was committed |
| `HistoryExamples.DoneOverOpenReachable` | packages/agentconnect-core/src/agentconnect/common/workqueue.py:943-997 | a history after which a done ticket depends on an open one |
| `QueueHistories.AuditIsExact` | packages/agentconnect-core/src/agentconnect/common/workqueue.py:1369-1397 | no status write without its audit row and no audit row without its status write, in every commit |
| `QueueHistories.StepKeepsAttempts` | packages/agentconnect-core/src/agentconnect/common/workqueue.py:695-706 | a step keeps the attempts within the budget and strictly lowers a measure whenever it changes the status |
| `QueueHistories.BoundedLife` | packages/agentconnect-core/src/agentconnect/common/workqueue.py:479-501 | in every history a ticket is claimed exactly `attempts` times, at most max(1, max_attempts), and changes status at most three times that often |
| `QueueHistories.AuditReplays` | packages/agentconnect-core/src/agentconnect/common/workqueue.py:1369-1397 | at every point of every history the audit rows of a ticket replay from its insert-time status to its stored status |
| `QueueHistories.TaskAuditReplays` | packages/agentconnect-core/src/agentconnect/common/memory.py:312-335 | likewise the applied records of a task replay to its stored state |
| `QueueHistories.ParkedAndTerminalAreFinal` | packages/agentconnect-core/src/agentconnect/common/workqueue.py:304-317 | done, failed and cancelled stay; a parked ticket can only become failed or cancelled; a dead ticket stays dead |
| `QueueHistories.UnredactedIsNeverHeld` | packages/agentconnect-core/src/agentconnect/common/workqueue.py:314-317 | a ticket added un-redacted in a class that requires redaction is parked, failed or cancelled ever after, under no lease |
| `QueueHistories.TerminalTaskIsFinal` | packages/agentconnect-core/src/agentconnect/common/workqueue.py:1475-1503 | no commit moves a task out of a terminal state |
| `SplitSteps.SplitReportIsAtomic` | packages/agentconnect-core/src/agentconnect/common/workqueue.py:684-735 | the fenced write of a report is the atomic report of that moment, however old its reading |
| `SplitSteps.SplitAddIsAtomic` | packages/agentconnect-core/src/agentconnect/common/workqueue.py:297-352 | the insert of `add` is the atomic one although its dependency checks were made earlier |
| `SplitSteps.SplitLinkIsAtomic` | packages/agentconnect-core/src/agentconnect/common/workqueue.py:943-986 | the guarded insert of `link` is the atomic one although its first checks were made earlier |
| `SplitSteps.StepKeepsWInv` | packages/agentconnect-core/src/agentconnect/common/workqueue.py:719-735 | every step of every process keeps the base invariant, the freshness of tokens and the reliability of what other processes carry |
| `SplitSteps.RunKeepsWInv` | packages/agentconnect-core/src/agentconnect/common/workqueue.py:479-501 | so all of that holds in every world of every run, crashes included |
| `SplitRuns.ClaimInterval` | packages/agentconnect-core/src/agentconnect/common/workqueue.py:472-516 | a claimed ticket has been claimed once under its token and held under it ever since |
| `SplitRuns.OneClaimPerToken` | packages/agentconnect-core/src/agentconnect/common/workqueue.py:472-516 | a token is minted by one claim only |
| `SplitRuns.OldTokenRefused` | packages/agentconnect-core/src/agentconnect/common/workqueue.py:548-558 | once a ticket is claimed again nothing succeeds under the old token: no report, no renewal, no payload read |
| `SplitRuns.OneReportPerToken` | packages/agentconnect-core/src/agentconnect/common/workqueue.py:719-735 | each token yields at most one accepted report |
| `SplitRuns.RequeueBetweenClaims` | packages/agentconnect-core/src/agentconnect/common/workqueue.py:1047-1067 | between two claims of a ticket it was put back to open |
| `SplitRuns.NeverReportableAndReapable` | packages/agentconnect-core/src/agentconnect/common/workqueue.py:1047-1067 | at one instant a lease is never both usable and reapable |
| `SplitRuns.VerificationGate` | packages/agentconnect-core/src/agentconnect/common/workqueue.py:684-706 | behind every done ticket of every run stands a last accepted report that said completed, and either trust on both sides of it or a later local_only approval |
| `SplitRuns.RecordedCancelIsDeadIff` | packages/agentconnect-core/src/agentconnect/common/workqueue.py:1013-1035 | a ticket a cancel records as cancelled is dead exactly when it was not done already at the UPDATE |
| `SplitRuns.SplitCascadeSafety` | packages/agentconnect-core/src/agentconnect/common/workqueue.py:1317-1364 | as long as no cancel was stale, a cascade of any process only ever fails open or parked tickets |
| `SplitRuns.OnlyDoneCauseHitsLease` | packages/agentconnect-core/src/agentconnect/common/workqueue.py:1036-1038 | the only cause from which a cascade can hit a ticket in flight is a done one |
| `SplitRuns.StaleCancelClearsLease` | packages/agentconnect-core/src/agentconnect/common/workqueue.py:1013-1038 | and from a stale cancel it does: the dependent fails and loses its lease though its parent is done |
| `SplitRuns.SplitNoLaundering` | packages/agentconnect-core/src/agentconnect/common/workqueue.py:479-501 | acyclicity and no laundering in every world of every run |
| `SplitRuns.SplitParkedAndTerminalAreFinal` | packages/agentconnect-core/src/agentconnect/common/workqueue.py:304-317 | in every run done, failed and cancelled stay, and a parked ticket can only become failed or cancelled, so one parked by policy never gets to a worker |
| `SplitRuns.SplitUnredactedIsNeverHeld` | packages/agentconnect-core/src/agentconnect/common/workqueue.py:314-317 | the same in every later world of every run of interleaved processes, and no claim of it succeeds |
| `SplitRuns.SplitNotPullable` | packages/agentconnect-core/src/agentconnect/common/workqueue.py:304-317 | in every world of every run a ticket whose class admits no tier is parked, failed or cancelled |
| `SplitRuns.SplitRejectIsAtomicIff` | packages/agentconnect-core/src/agentconnect/common/workqueue.py:888-910 | a rejection from an older reading is the atomic one exactly unless it requeues a ticket whose attempts are used up by now; it never errs the other way |
| `SplitHistories.StepLife` | packages/agentconnect-core/src/agentconnect/common/workqueue.py:684-910 | what any step of any process does to a row: nothing, or a real step that leaves an attempt when it requeues, unless it is a stale requeue |
| `SplitHistories.SplitLife` | packages/agentconnect-core/src/agentconnect/common/workqueue.py:479-501 | in every run attempts count the claims; without a stale requeue of it a ticket is within its budget and a measure pays for every change of status |
| `SplitHistories.SplitBudgetIff` | packages/agentconnect-core/src/agentconnect/common/workqueue.py:891-898 | a ticket is within its budget in every world so far exactly when no rejection was a stale requeue of it; then it has been claimed at most max(1, max_attempts) times |
| `SplitHistories.StepAudit` | packages/agentconnect-core/src/agentconnect/common/workqueue.py:1369-1397 | any step writes an audit row of a ticket exactly for a change of its status and naming it, unless it is a cancel or cascade with a stale reading |
| `SplitHistories.SplitAuditReplaysIff` | packages/agentconnect-core/src/agentconnect/common/workqueue.py:1030-1035 | at every point of every run the audit rows of a ticket replay to its status exactly when none was written from a stale reading; the first stale one breaks the chain for good |
| `SplitHistories.StaleAuditBreaksChain` | packages/agentconnect-core/src/agentconnect/common/workqueue.py:1013-1035 | any reachable stale cancel or cascade extends to a run with a broken chain |
| `SplitExamples.StaleCancelReachable` | packages/agentconnect-core/src/agentconnect/common/workqueue.py:1013-1038 | a concrete run in which a stale cancel is about to clear the lease of a claimed ticket whose parent is done |
| `SplitExamples.StaleAuditReachable` | packages/agentconnect-core/src/agentconnect/common/workqueue.py:1013-1035 | a concrete run whose audit ends claimed to cancelled for a ticket that is done |
| `SplitExamples.StaleRejectReachable` | packages/agentconnect-core/src/agentconnect/common/workqueue.py:891-898 | a concrete run in which two reviewers leave a ticket open beyond its budget |
| `SplitRefinement.HistoryIsARun` | packages/agentconnect-core/src/agentconnect/common/memory.py:163-195 | every history of atomic commits with distinct tokens is the store of a split run, so theorems about runs hold of the object |
| `Fallout.MirrorEffect` | packages/agentconnect-core/src/agentconnect/common/workqueue.py:1475-1503 | a mirrored outcome reaches a live task and leaves missing and ended ones alone |
| `Fallout.ClosedIsFallout` | packages/agentconnect-core/src/agentconnect/common/workqueue.py:1317-1366 | a set reached from the root and closed under live dependents is all that a cascade fails |
| `Worklist.VisitIsSound` | packages/agentconnect-core/src/agentconnect/common/workqueue.py:1331-1364 | what one visit of the cascade loop keeps: the cause is dead, the child was reached, exactly the visited tickets are failed |
| `Reaping.CascadeFailsDoomed` | packages/agentconnect-core/src/agentconnect/common/workqueue.py:1083-1105 | a cascade in the middle of the healing phase fails only what the dead tickets doomed from the start, each once |
| `Reaping.CascadeSettles` | packages/agentconnect-core/src/agentconnect/common/workqueue.py:1317-1366 | after a cascade whoever strands a dependent stranded it before and is neither the root nor newly failed |
| `Reaping.ClosedIsDoomed` | packages/agentconnect-core/src/agentconnect/common/workqueue.py:1095-1105 | when no root and no failed ticket has a live dependent left, everything doomed has been failed |
| `Reaping.ReaperPhases` | packages/agentconnect-core/src/agentconnect/common/workqueue.py:1076-1105 | the two cascading phases together fail exactly what the dead tickets doom and strand nothing |
| `Reaping.MovedIsSettled` | packages/agentconnect-core/src/agentconnect/common/workqueue.py:1076-1123 | a live task has ended after the pass exactly when a ticket linked to it is done or failed by then or was parked in this pass |
| `Promises.PassIsShown` | packages/agentconnect-core/src/agentconnect/common/workqueue.py:1042-1124 | a pass of the reaper in terms of the columns: every overdue lease is taken away, every lease left is good, whatever else changes is failed because of a lost ticket, and nothing live depends on a lost one |
| `Promises.HeldIsNotDoomed` | packages/agentconnect-core/src/agentconnect/common/workqueue.py:1317-1366 | no lost ticket drags down one that a worker holds, in any store with the base invariant |
| `Promises.CascadeIsShown` | packages/agentconnect-core/src/agentconnect/common/workqueue.py:1317-1366 | a cascade in terms of the columns: it fails only live tickets that depend on the root, with their tasks, and leaves nothing live behind the root or what it failed |
| `Promises.CancelIsShown` | packages/agentconnect-core/src/agentconnect/common/workqueue.py:1001-1039 | a cancel in terms of the columns: exactly the live tickets of the task are cancelled, and a cascade follows from them |
| `Promises.NewRowIsAdded` | packages/agentconnect-core/src/agentconnect/common/workqueue.py:297-352 | the inserted row: parked exactly when no tier is admitted, or when redaction is required and missing, else open, with no attempt and no lease |
| `Outcomes.SettledLands` | packages/agentconnect-core/src/agentconnect/common/workqueue.py:684-789 | what follows a status write, in terms of the columns: the task takes the outcome if it is live, a failure drags down what depends on it, an open ticket changes nothing else |
| `Outcomes.HealedIsRepaired` | packages/agentconnect-core/src/agentconnect/common/workqueue.py:637-676 | what a repeated report makes up for, in terms of the columns |
| `HistoryExamples.ForgottenMirrorReachable` | packages/agentconnect-core/src/agentconnect/common/workqueue.py:1076-1123 | a history after which no pass of the reaper, whenever it runs, ends the live task of an exhausted ticket |
| `Progress.SomethingCanMove` | packages/agentconnect-core/src/agentconnect/common/workqueue.py:1286-1297 | no deadlock: if nothing live depends on anything dead, every open ticket or one of its transitive dependencies is ready, in flight or held by policy |
| `Progress.OpenIsClaimableIff` | packages/agentconnect-core/src/agentconnect/common/workqueue.py:479-501 | an open ticket can be claimed by some tier exactly when its dependencies are done and its task is not cancelled |
| `Progress.TicketOfCancelledTaskWaits` | packages/agentconnect-core/src/agentconnect/common/workqueue.py:490-496 | a commit changes an open ticket of a cancelled task exactly when it is a cancel of it or a cascade to it |
| `Progress.TicketWaitsIff` | packages/agentconnect-core/src/agentconnect/common/workqueue.py:490-496 | over whole histories such a ticket is as it was, and claimable by no tier, exactly when no cancel of it and no cascade to it has been committed |
| `HistoryExamples.WaitingTicketReachable` | packages/agentconnect-core/src/agentconnect/common/workqueue.py:490-496 | a history that reaches such a ticket |
| `ClaimOrder.BatchIsDetermined` | packages/agentconnect-core/src/agentconnect/common/workqueue.py:383-430 | the first min(max, 50) eligible tickets in claim order are one sequence only |
| `ClaimOrder.BatchIsRightful` | packages/agentconnect-core/src/agentconnect/common/workqueue.py:370-430 | the batch in terms of the columns: urgent before other before low, then the older; at most fifty; what is left out goes after everything handed out |
| `ClaimOrder.SelectOpen` | packages/agentconnect-core/src/agentconnect/common/workqueue.py:396-401 | the query returns exactly the open tickets of the admissible classes: urgent first, low last, anything else between, then the older, then the one inserted earlier |
| `ClaimOrder.ClaimKeepsOthersEligible` | packages/agentconnect-core/src/agentconnect/common/workqueue.py:479-501 | a claim takes that one ticket out of what is eligible and nothing else |
| `WorkQueues.WorkQueue.constructor` | packages/agentconnect-core/src/agentconnect/common/workqueue.py:203-222 | an empty queue, the empty history |
| `WorkQueues.WorkQueue.OnStore` | packages/agentconnect-core/src/agentconnect/common/workqueue.py:203-222 | a queue can be opened on any store with the base invariant, so on what other brokers or a crash have left |
| `WorkQueues.WorkQueue.BaseInvariant` | packages/agentconnect-core/src/agentconnect/common/workqueue.py:250-1366 | the base invariant holds in every state of the object |
| `WorkQueues.WorkQueue.ValidIsReachable` | packages/agentconnect-core/src/agentconnect/common/memory.py:163-195 | every state of an object that started empty is the store of a reachable world of the split system |
| `WorkQueues.WorkQueue.Add` | packages/agentconnect-core/src/agentconnect/common/workqueue.py:250-367 | a known dedup key returns its ticket unchanged; else the first dependency that is missing or seen by fewer tiers is reported and nothing written; else one fresh row with its edges: parked when no tier is admitted or redaction is required and missing, else open, no attempts, no lease, the columns of the request |
| `WorkQueues.WorkQueue.TryClaim` | packages/agentconnect-core/src/agentconnect/common/workqueue.py:458-524 | wins exactly when ticket is open, tier admitted, parents done, task not cancelled; then the row is claimed, one attempt more, under a token never used before and until the asked or the default time from now |
| `WorkQueues.WorkQueue.ClaimOne` | packages/agentconnect-core/src/agentconnect/common/workqueue.py:433-456 | which of the three refusals is given when, and that a refusal changes nothing |
| `WorkQueues.WorkQueue.ClaimNext` | packages/agentconnect-core/src/agentconnect/common/workqueue.py:370-430 | the re-querying loop returns exactly the batch and hands out exactly those rows with their leases; if an eligible ticket is left out, the batch is full of tickets that are more urgent or as urgent and older; a short result means nothing eligible is left |
| `WorkQueues.WorkQueue.RenewLease` | packages/agentconnect-core/src/agentconnect/common/workqueue.py:528-558 | refuses a non-positive extension and any but the live lease; else the new expiry lies at most an hour ahead and nothing but it changes |
| `WorkQueues.WorkQueue.PayloadFor` | packages/agentconnect-core/src/agentconnect/common/workqueue.py:576-616 | each refusal exactly when it applies; a reference is given only to the live lease holder of a tier still admitted |
| `WorkQueues.WorkQueue.ReportResult` | packages/agentconnect-core/src/agentconnect/common/workqueue.py:620-789 | under the fence a failed report gives open while attempts remain, with nothing else changed, else failed, its task failed and its dependents dragged down; a completed one gives done exactly when reporter and lease tier are both local_only, else review; every refusal exactly when it applies; a repeat repairs what a crash cut off |
| `WorkQueues.WorkQueue.ApproveResult` | packages/agentconnect-core/src/agentconnect/common/workqueue.py:815-855 | only a local_only reviewer, only from review, to done and mirrored |
| `WorkQueues.WorkQueue.RejectResult` | packages/agentconnect-core/src/agentconnect/common/workqueue.py:858-928 | requeue while attempts remain, else failed, mirrored and cascaded; on a failed ticket the cascade and mirror are driven again |
| `WorkQueues.WorkQueue.LinkTickets` | packages/agentconnect-core/src/agentconnect/common/workqueue.py:932-997 | every answer exactly when it applies; the cycle refusal exactly when the edge would make the dependencies cyclic |
| `WorkQueues.WorkQueue.NewEdgeIsSafeIff` | packages/agentconnect-core/src/agentconnect/common/workqueue.py:965-986 | the guard of the INSERT is exact in every state of the object |
| `WorkQueues.WorkQueue.FailDependent` | packages/agentconnect-core/src/agentconnect/common/workqueue.py:1343-1362 | fails one live dependent and its task, in two audited commits |
| `WorkQueues.WorkQueue.CascadeFailure` | packages/agentconnect-core/src/agentconnect/common/workqueue.py:1317-1366 | the worklist terminates and fails exactly the live tickets that depend on the root directly or through live tickets, each once, with their tasks |
| `WorkQueues.WorkQueue.CascadeEach` | packages/agentconnect-core/src/agentconnect/common/workqueue.py:1036-1038 | cascading from several dead tickets fails exactly what they doom and leaves none of them a live dependent |
| `WorkQueues.WorkQueue.CancelForTask` | packages/agentconnect-core/src/agentconnect/common/workqueue.py:1001-1039 | exactly the live tickets of the task are cancelled, and exactly what they doom is failed, with its tasks |
| `WorkQueues.WorkQueue.ReapLeases` | packages/agentconnect-core/src/agentconnect/common/workqueue.py:1047-1075 | an overdue lease is one held past its expiry; its ticket goes back to open without lease while attempts remain, else it is parked as exhausted; no other row changes; the two lists are exact |
| `WorkQueues.WorkQueue.HealMirrors` | packages/agentconnect-core/src/agentconnect/common/workqueue.py:1111-1123 | afterwards the task of every done or failed ticket has ended |
| `WorkQueues.WorkQueue.ReapExpired` | packages/agentconnect-core/src/agentconnect/common/workqueue.py:1042-1124 | from any store with the base invariant: the two lists are exactly the overdue tickets with and without attempts left, the first open without a lease, the second parked; every claimed ticket has a lease that is not overdue; whatever else changed depended on a lost ticket and failed; nothing live depends on a lost one, tasks have ended exactly where the pass or a settled ticket ends them, and every open ticket can still get somewhere |
| `WorkQueues.WorkQueue.IsBlocked` | packages/agentconnect-core/src/agentconnect/common/workqueue.py:1286-1297 | blocked exactly when some dependency has no parent that is done |
| `WorkQueues.WorkQueue.MirrorTaskState` | packages/agentconnect-core/src/agentconnect/common/workqueue.py:1475-1503 | one converge call of the transition authority under the ticket overlay: a live task takes the outcome, a missing or ended one ignores it |
| `WorkQueues.WorkQueue.DriveTask` | packages/agentconnect-core/src/agentconnect/common/transitions.py:199-405 | a verb on a task: written exactly for a legal move, with the record of it, else the record its verb leaves |
| `MemoryArtifacts.Artifacts.PutArtifact` | packages/agentconnect-core/src/agentconnect/common/memory.py:410-420 | stores the body under a fresh id |
| `MemoryArtifacts.Artifacts.ReadArtifactChunk` | packages/agentconnect-core/src/agentconnect/common/memory.py:422-441 | a chunk is the characters from the offset on, as many as the bound allows, a negative one counting from the end; the next offset is given exactly while something is left |
| `MemoryArtifacts.Artifacts.ReadArtifactFull` | packages/agentconnect-core/src/agentconnect/common/workqueue.py:561-573 | the reassembly loop terminates and returns the whole body |
| `Utf8Paging.DecodeEncode` | packages/agentconnect-core/src/agentconnect/core/artifacts.py:84-91 | decoding what was encoded gives the text back (section 3 of RFC 3629) |
| `Utf8Paging.EncodeCharSpells` | packages/agentconnect-core/src/agentconnect/core/artifacts.py:84-91 | the byte table of section 3 of RFC 3629: how many bytes, in which ranges, spelling which number |
| `Utf8Paging.EncodeDecode` | packages/agentconnect-core/src/agentconnect/core/artifacts.py:46-52 | the strict decoder accepts nothing but encodings (section 4 of RFC 3629) |
| `Utf8Paging.CutCharRefused` | packages/agentconnect-core/src/agentconnect/core/artifacts.py:46-52 | a character cut short does not decode, whatever whole characters precede it |
| `Utf8Paging.Boundaries` | packages/agentconnect-core/src/agentconnect/core/artifacts.py:67-76 | from any offset the next character boundary is at most three continuation bytes away |
| `Utf8Paging.ValidPrefixLen` | packages/agentconnect-core/src/agentconnect/core/artifacts.py:37-52 | the longest decodable length among those tried, or the whole chunk when none decodes |
| `Utf8Paging.FirstCharLen` | packages/agentconnect-core/src/agentconnect/core/artifacts.py:55-64 | the shortest decodable length from one to four |
| `Utf8Paging.AlignStart` | packages/agentconnect-core/src/agentconnect/core/artifacts.py:67-76 | skips continuation bytes only, at most four |
| `Utf8Paging.ArtifactStore.Write` | packages/agentconnect-core/src/agentconnect/core/artifacts.py:84-91 | stores exactly the encoding |
| `Utf8Paging.ArtifactStore.ReadChunk` | packages/agentconnect-core/src/agentconnect/core/artifacts.py:103-132 | on stored text, at any offset and limit: the characters from the first that starts at or after the offset, as many as stay within the limit and at least one, with the exact next offset; on any bytes: a contiguous piece, and paging moves on |
| `Utf8Paging.ChunkWidth` | packages/agentconnect-core/src/agentconnect/core/artifacts.py:120-128 | a chunk overruns its limit exactly when one character alone does, and otherwise one more would not have fitted |
| `Utf8Paging.PagingRoundTrip` | packages/agentconnect-core/src/agentconnect/core/artifacts.py:1-13 | for any text and any sequence of limits the offsets strictly increase, there are no more reads than characters, and the chunks join to the text |
| `Utf8Paging.AnyBytesEnd` | packages/agentconnect-core/src/agentconnect/core/artifacts.py:37-52 | paging strictly advances and ends on any bytes, corrupt ones included |
| `Quota.AlignedIsLastBoundary` | packages/agentconnect-core/src/agentconnect/common/quota.py:26-57 | an aligned window starts at the last boundary at or before now |
| `Quota.WindowStartIsRight` | packages/agentconnect-core/src/agentconnect/common/quota.py:26-57 | the window starts at the last UTC midnight, at the last multiple of its length, or for a rolling one a length ago |
| `Quota.FitsIsAdmitted` | packages/agentconnect-core/src/agentconnect/common/quota.py:131-144 | the admission rule cap by cap: one more request, the tokens of both directions, and their price per thousand each have room |
| `Quota.WindowStartMonotone` | packages/agentconnect-core/src/agentconnect/common/quota.py:31-57 | daily, calendar and rolling windows never move back and never start in the future |
| `Quota.QuotaLedger.Expire` | packages/agentconnect-core/src/agentconnect/common/quota.py:80-83 | expiring drops the dead reservations and changes no sum from then on |
| `Quota.QuotaLedger.ReservedTotals` | packages/agentconnect-core/src/agentconnect/common/quota.py:85-89 | the three sums over one provider's reservations |
| `Quota.QuotaLedger.UsageSince` | packages/agentconnect-core/src/agentconnect/common/memory.py:561-569 | the three sums over one provider's usage in the window |
| `Quota.QuotaLedger.Remaining` | packages/agentconnect-core/src/agentconnect/common/quota.py:99-129 | in each capped quantity the cap less used less reserved, never below zero |
| `Quota.QuotaLedger.CanReserve` | packages/agentconnect-core/src/agentconnect/common/quota.py:131-144 | yes exactly when one request, the tokens and their price fit beside usage and reservations under every cap |
| `Quota.QuotaLedger.Reserve` | packages/agentconnect-core/src/agentconnect/common/quota.py:146-169 | grants exactly when that fits, and then holds one request, the tokens and their price until the time to live has passed, under a fresh id; expired reservations go, others stay |
| `Quota.QuotaLedger.Reconcile` | packages/agentconnect-core/src/agentconnect/common/quota.py:171-199 | drops the reservation and commits the actual tokens and their price, and one request only when completed |
| `QuotaRuns.ReserveIsItsSteps` | packages/agentconnect-core/src/agentconnect/common/quota.py:146-169 | an undisturbed reserve is its check and its insert |
| `QuotaRuns.ReconcileIsItsSteps` | packages/agentconnect-core/src/agentconnect/common/quota.py:171-199 | an undisturbed reconcile is its pop and its commit, reservation or not |
| `QuotaRuns.OverspendIsBounded` | packages/agentconnect-core/src/agentconnect/common/quota.py:131-204 | for any number of callers whose steps interleave, usage plus reservations never exceed the cap by more than one estimate for every caller but one and what was committed late or beyond its estimate, across expiry and moving windows |
| `QuotaRuns.ConservedWithoutOverlap` | packages/agentconnect-core/src/agentconnect/common/quota.py:131-204 | without overlap only what was committed late or beyond its estimate can exceed the cap, in requests, tokens and spend |
| `QuotaRuns.StepExceedsIff` | packages/agentconnect-core/src/agentconnect/common/quota.py:131-204 | a step takes books within the cap over it exactly when the admission check, made again at that step, refuses what it inserts or commits |
| `QuotaRuns.RunWithinCapIff` | packages/agentconnect-core/src/agentconnect/common/quota.py:131-204 | over whole runs the cap is kept throughout exactly when no step does that |
| `QuotaRuns.LateReconcileExceedsIff` | packages/agentconnect-core/src/agentconnect/common/quota.py:171-199 | a reconcile whose reservation has expired or is gone passes the cap exactly when the headroom does not cover the actual usage |
| `QuotaRuns.OverlapReachesBound` | packages/agentconnect-core/src/agentconnect/common/quota.py:146-163 | for every number of callers the bound is met: all check, all insert, all are granted the last request |
| `EventLog.Log.Append` | packages/agentconnect-core/src/agentconnect/core/storage.py:516-582 | a new event gets a number above all earlier ones; a known event id leaves the log as it is |
| `EventLog.Log.List` | packages/agentconnect-core/src/agentconnect/core/storage.py:611-640 | the first rows after the cursor that no filter shuts out, in ascending order, at most the limit kept within 1 and 500; if one is left out the page is full of earlier ones |
| `EventLog.OwedIsExact` | packages/agentconnect-core/src/agentconnect/core/storage.py:611-640 | owed are exactly the matching rows after the cursor, once each, ascending |
| `EventLog.ResumeAnywhere` | packages/agentconnect-api/src/agentconnect/api/routes_events.py:178-198 | resuming from any sequence number sent continues exactly where the stream broke off |
| `EventLog.ExactlyOnce` | packages/agentconnect-api/src/agentconnect/api/routes_events.py:178-198 | the rows sent are exactly the matching rows between start and cursor, in order, without gap or duplicate |
| `EventLog.QuietStretch` | packages/agentconnect-api/src/agentconnect/api/routes_events.py:192-197 | a stretch of empty polls gives one keepalive for every fifteen and nothing else |
| `EventLog.SseLines` | packages/agentconnect-api/src/agentconnect/api/routes_events.py:162-198 | whatever is published between polls, the tail has sent exactly what lies up to its cursor, and a batch short of the limit leaves nothing owed |
| `ExecutionLedger.SealVerifies` | packages/agentconnect-core/src/agentconnect/core/execution_records.py:149-161 | sealing makes a record verify, changes nothing that verified, and no other hash would do |
| `ExecutionLedger.Ledger.Record` | packages/agentconnect-core/src/agentconnect/core/execution_record_store.py:64-75 | unknown tasks, broken seals and repeated ids are refused and store nothing; else the record is chained to the head and the ledger stays intact |
| `ExecutionLedger.Ledger.VerifyChain` | packages/agentconnect-core/src/agentconnect/core/execution_record_store.py:87-120 | accepts exactly the ledgers in which every record hashes to its own non-empty hash, the first names no predecessor and every other names the hash before it; on a break it has counted the longest intact prefix and names the record and the reason |
| `ExecutionLedger.TailDeterminesLedger` | packages/agentconnect-core/src/agentconnect/core/execution_record_store.py:87-104 | two intact ledgers with the same last hash are equal record by record |
| `ExecutionLedger.TamperingIsCaught` | packages/agentconnect-core/src/agentconnect/core/execution_record_store.py:100-104 | of all ledgers ending in the same tail record exactly the original passes |
| `ExecutionLedger.PrefixIntact` | packages/agentconnect-core/src/agentconnect/core/execution_record_store.py:97-101 | a truncated ledger passes |
| `ExecutionLedger.ResealedIsIntact` | packages/agentconnect-core/src/agentconnect/core/execution_record_store.py:97-104 | so does any rewrite whose successors are sealed again, whatever was rewritten |
| `ExecutionLedger.RewriteShowsInTail` | packages/agentconnect-core/src/agentconnect/core/execution_record_store.py:97-104 | such a rewrite keeps the tail hash exactly when it rewrote nothing |
| `Redaction.SortFindings` | packages/agentconnect-core/src/agentconnect/safety/redaction.py:24 | sorted by start and descending end, stably, the same findings |
| `Redaction.MergeSpans` | packages/agentconnect-core/src/agentconnect/safety/redaction.py:20-35 | spans are non-empty, left to right, disjoint, cover exactly the union of the findings, each named by the first longest finding at its start; they are its connected runs: no finding is cut, and findings that only touch stay apart |
| `Redaction.PiecesKeepUncovered` | packages/agentconnect-core/src/agentconnect/safety/redaction.py:38-50 | what is kept is exactly what no finding covers |
| `Redaction.PiecesMarkSpans` | packages/agentconnect-core/src/agentconnect/safety/redaction.py:46-48 | each merged span leaves exactly one marker, in order |
| `Redaction.PiecesAlternate` | packages/agentconnect-core/src/agentconnect/safety/redaction.py:38-50 | text and markers take turns: each marker stands between the text before and the text after its span |
| `Redaction.Rebuild` | packages/agentconnect-core/src/agentconnect/safety/redaction.py:41-50 | the loop over the spans; its skip branch is dead |
| `Redaction.Redact` | packages/agentconnect-core/src/agentconnect/safety/redaction.py:38-50 | every uncovered character survives in order, no covered one does, one marker stands for each merged span, in its place |

## Left out

- SQLite itself: WAL, busy timeouts, the rollback after an exception, and with them the early return of `claim_next` on store contention.
- The reaper thread, sleeping and clocks: times are parameters, and the model does not require them to be monotone except in `Quota`.
- Provenance lists, artifacts of results and their orphan cleanup, evaluations, and the advisory event-bus bridge of the queue.
- Listings, statistics, operator rows and the redacted public row: projections of the rows modelled.
- Payload text in `PayloadFor`: it answers with the reference, and reading the body is `MemoryArtifacts`.
- `delete_task_cascade` and other maintenance of the shared tables outside the modelled files; deletion of tickets or tasks is not modelled.
- `bind_task_state_authority`, messages and log formatting of the authority; the message texts carry no state.
- Replacement characters: for bytes the strict decoder refuses, a chunk's text is None instead of the text with U+FFFD.
- The file system of the artifact store: path sanitising and directories; a path is a key of a map.
- Quota fractions, rental budgets and the unlocked read of usage after the locked read of reservations, which can only count more.
- Floating point: quota prices and times are exact reals.
- SHA-256 and canonical JSON: one injective function that never returns the empty string.
- Rebuild: the marker text is not rendered; a marker is the pair of category and rule id it is made of.
- The fail-closed rule of `build_execution_record` (success needs a verified redemption): one test on the arguments.
- Regular-expression classification and redaction in `common/privacy.py`, the router, HTTP, CLI and MCP adapters, notifiers and memory backends.
