# Verified model of the MCP call, grant, catalog and refresh protocol

This project models the core of the `anvilkit-agent-mcp` service in Dafny and proves what its
documentation promises about it. The service moves four interlocking state machines over shared
tables: guarded tool calls, the grant revocation barrier, the catalog of descriptor revisions, and
leased background requests. Several replicas work on them at once, answers are lost, and a process can die
between any two steps. Everything here is proved by the verifier; nothing was executed.

## How the model is built

* `Rows`, `Sql`, `Store`: the rows of the call, grant and descriptor tables; each guarded SQL update and each
  transaction body as a function of the tables (`Sql`); and the same operations as a class that changes its
  fields (`Store.Tables`, `Store.Process`), every method proved to be the function.
* `Protocol`: one labelled transition system. A thread is a program counter with what it has read; a transaction
  is one step; every read, Control call or upstream call outside a transaction is a step of its own, so threads
  act on stale reads. A write may be answered, lost before it took effect, or lost after. A thread may crash at
  any point, any number of threads may run, and any thread may work on any call. Control answers with permission
  at most once for a call and may lose the answer (`internal/application/calls_test.go:60-83`).
* `Invariant`, `Preservation`: the inductive invariant, a rely condition between threads (`Evolves`), and one
  preservation lemma for each of the 32 kinds of step. `Theorems`, `Settlement` and `Observations` draw the
  properties of whole runs; `Witness` and `Expiry` build runs from empty tables that show where a condition is needed.
* `Effects`, `TaskEffects`: what each update and transaction changes, column by column, and when, said on the rows before and
  after. `Replies`, `Outcomes`, `Decisions`: from what a tool, Control, a reviewer or an operator said, over the run, to
  the rows. `Lifecycle`: a run from empty tables through a whole successful life.
* `Replica`: a process whose transactions, run on the `Store.Tables` object, are proved to be the steps its thread is at.
* `TaskRules`, `TaskTables`, `TaskStore`: the pure decisions about a background generation, the transactions around them as functions,
  and the owner as a class. `TaskSystem`, `TaskInvariant`, `TaskPreservation` and `TaskTheorems` run them
  together with the call and grant protocol as one system. `Trace` leads the end of every attempt back to the one
  step that ended it, `Answers` every answer of Control to the attempt it was obtained in, `TaskWitness` builds a run, `Lane` proves the owner's transactions to be steps, and `Joint` that every run of the joint system is a run
  of the protocol in its calls and grants.
* `Sorting`, `Catalog`, `Listing`, `Refresh`: building a descriptor from a declaration and a live read, and rebuilding
  it for a refresh. `GrantRules`, `GrantTables`: the checks of a grant request, and their agreement with the transaction on the tables. `Encoding`: the length-prefixed identity of a grant. `Walker`: the JSON argument check, with the
  token automaton of Go's `encoding/json` decoder that it drives. `Paging`: the keyset pass of the call reconciler.

Digests are modelled as their pre-images, so equal digests mean equal contents. Identities are naturals, text is a
sequence of bytes, instants are integers on one clock that never goes back.

## Findings

* **Operator reconciliation can contradict itself.** `ReconcileCall` asks Control to settle an UNKNOWN call even
  when its own report went unanswered (`internal/application/calls.go:859-863`). Under every configuration with a
  positive send timeout there is a run from empty tables in which one (dispatch, sequence) is reported twice with different outcomes
  (`Witness.OperatorContradicts`), and every reachable state with an UNKNOWN call that is not observed can continue to
  one (`Observations.OperatorCanContradict`). As long as that path is never started on such a call, no two reports
  differ (`Observations.ReportsConsistent`).
* **The configuration asks for slightly more than is needed.** Over all runs, no reconciler and no operator declares a
  call UNKNOWN before the send context of its marker has expired if and only if `ReconcileAge >= SendTimeout`
  (`Witness.SendBoundOverRuns`, with a run that shows the failure); `internal/config/config.go:687-689` demands `>`.
* **Named lists can drift falsely.** `sortNamed` orders by `Name + NUL + URI` alone. Whatever the sort is, a refresh of
  the same server is free of false drift for every order in which it lists things if and only if different entries have
  different keys (`Refresh.RefreshRoundTrip`; the failing reading exchanges two entries under one key). Names without
  NUL are enough, and with NUL it fails (`Refresh.NulIsNotSeparated`). The types of the columns that keep the lists are
  not part of the repository, so whether a name with NUL can be stored at all is not settled here.
* **An expiry is checked before it is truncated.** `NewGrant` compares the expiry with the clock and then truncates it to
  the microsecond (`internal/domain/grant.go:151-159`), so an admissible request becomes a grant that is already expired
  exactly when its expiry lies in the microsecond of its creation (`GrantRules.StoredExpiryHasPassed`). A run from empty
  tables creates one (`Expiry.ExpiredGrantIsCreated`). A grant is never executable in any continuation of the run that
  created it if and only if its expiry lies there (`Expiry.NeverExecutableExactly`).
* **A not-sent answer may be about an earlier attempt.** The sweep asks Control before and outside its transaction, and the
  transaction does not look at which attempt was current then (`internal/application/tasks.go:442-472`). A run from empty
  tables ends the second attempt of an external effect with the answer about the first (`TaskWitness.StaleAnswer`). The
  answer belongs to the attempt it ends if and only if no claim of the generation took effect between the question and
  the sweep (`Answers.SweepActsOnAnEarlierAnswer`). Whether that
  does harm depends on whether Control's not-sent evidence about a dispatch is final, which the model does not say.
* **The fallback text of a drift is never used.** When a live server can be rebuilt, `driftReason` always names a part
  for a drift, and only for a drift (`Refresh.DriftIsNamed`).

A remark on `CacheKey`, as a function of values: its lists are joined with commas, so two values that differ only in where
the commas fall share a key (`Encoding.CommaIsNotSeparated`, with the exact condition in `Encoding.KeysAlike`). No two
stored grants are affected: another grant id or revision always separates (`Encoding.KeyNamesTheRevision`).

## Model

| member | source | states |
|---|---|---|
| `Theorems.RowsOnlyMoveForward` | internal/adapters/postgres/queries/calls.sql:25-49 | over any run the state of a call only moves to one it can reach by transitions, its frozen columns never change, and a set marker, dispatch or observation is never taken back, whoever writes and however late |
| `Theorems.EachStepIsATransition` | internal/adapters/postgres/queries/calls.sql:19-45 | every step moves a row along one transition accepted to admitted or denied, admitted to sent or canceled, sent to succeeded, failed or unknown, unknown to succeeded or failed, or leaves its state; a row begins as accepted |
| `Theorems.ReachesExactly` | internal/domain/call.go:103-109 | one state reaches another exactly when a sequence of transitions joins them |
| `Theorems.CallHistory` | internal/application/calls.go:600-681 | in every reachable state the marker is set exactly in sent, succeeded, failed and unknown; accepted, admitted, denied and canceled calls were never sent; usage is recorded only for a call that was sent |
| `Theorems.TerminalIsFinal` | internal/domain/call.go:103-109 | a terminal call keeps its state, code, usage and marker for the rest of every run |
| `Settlement.UnknownLeavesOnlyToSettlement` | internal/application/calls.go:875-900 | over any stretch of a run without a settlement of that call from Control's record, an UNKNOWN row keeps every column that recording an observation does not write: no late sender, reconciler, canceler or stop overwrites it |
| `Theorems.AtMostOneSend` | internal/application/calls.go:495-665 | in every run each call is sent at most once, by the thread that committed its marker and that received Control's one permission; a permission whose answer was lost is never used |
| `Theorems.MarkerPrecedesSend` | internal/application/calls.go:600-640 | at the moment of a send the marker is already committed by the sending thread and nothing was sent before |
| `Theorems.UsageNeverExceedsSends` | internal/application/calls.go:624-665 | the usage recorded over all calls never exceeds the number of sends |
| `Theorems.NoMarkerAfterRevocation` | internal/application/grants.go:263-349 | from the commit of REVOKING the grant never leaves the barrier, and no call of it is inserted or marked by anyone |
| `Theorems.RevokedMeansSettled` | internal/application/grants.go:355-430 | whenever a grant is REVOKED all its calls are terminal and stay exactly so, although the open count is read before and outside the finalising transaction |
| `Theorems.LiveGrantIsBound` | internal/application/grants.go:143-184 | in every committed state a pending or active grant is bound to an approved revision with the same digest |
| `Theorems.DisabledIsNeverMarked` | internal/application/catalog.go:445-468 | once a revision is disabled it stays so and no call of it is ever marked as sent, although the marker transaction reads only the grant |
| `Theorems.MarkedNeedsApproved` | internal/application/calls.go:603-616 | when a marker is committed the revision of the call is approved with the digest the call was frozen with |
| `Theorems.ActivationIsAReceipt` | internal/application/grants.go:210-258 | a grant becomes executable only from pending, by a recorded receipt |
| `Theorems.NeverReactivated` | internal/application/grants.go:327-335 | a grant that is neither pending nor executable is never executable again: no late receipt revives it |
| `Theorems.ExecutableIsOneInterval` | internal/domain/grant.go:221-223 | over any run the instants at which a grant is executable form one interval |
| `Theorems.ExpiredStaysExpired` | internal/domain/grant.go:221-223 | a grant whose expiry has come is never executable again, and its expiry never changes |
| `Observations.ReportsAgree` | internal/application/calls.go:685-711 | two reports of one (dispatch, sequence) are the same report for any concurrent or stale observers, unless the call was settled before an observation was recorded |
| `Observations.ReportsConsistent` | internal/application/calls.go:772-801 | if the operator path is never started on an UNKNOWN call that is not observed, no two reports of one (dispatch, sequence) ever differ in outcome or usage |
| `Observations.OperatorCanContradict` | internal/application/calls.go:852-872 | the condition is exact: from every state of the invariant with such a call the operator path can continue to two contradicting reports |
| `Witness.OperatorContradicts` | internal/application/calls.go:852-872 | and under every configuration with a positive send timeout a run from empty tables gets there |
| `Witness.UnknownRun` | internal/application/calls.go:537-665 | a run from empty tables discovers, reviews, grants, registers, creates, admits, marks and sends a call and leaves it UNKNOWN and not observed |
| `Observations.NoEarlyUnknown` | internal/application/calls.go:768-789 | when the reconcile age is at least the send timeout, no reconciler and no operator declares a call UNKNOWN before the send context recorded with its marker has expired, whether its sender still waits for the reply, holds it, or is gone |
| `Observations.BoundIsTheSenders` | internal/application/calls.go:564-567 | the send context recorded with a marker is the one its sender sends under, and no other thread sends the call or holds its reply |
| `Witness.EarlyUnknown` | internal/application/calls.go:768-789 | with a reconcile age below the send timeout a run from empty tables declares a call UNKNOWN while the send context of its marker has not expired |
| `Witness.SendBoundOverRuns` | internal/config/config.go:683-689 | over all runs of a configuration with a positive send timeout, no reconciler and no operator is early if and only if the reconcile age is at least the send timeout |
| `Observations.SendAgeIs` | internal/application/calls.go:768-770 | the send age is the earlier of the send timeout with five seconds more and the reconcile age |
| `Observations.SendBoundExact` | internal/config/config.go:687-689 | a marker old enough to be abandoned is past its send bound, for all instants, if and only if the reconcile age is at least the send timeout |
| `Preservation.StepKept` | internal/application/calls.go:280-901 | every one of the 32 kinds of step keeps the invariant and what every other thread relies on |
| `Preservation.RunInv` | internal/application/grants.go:114-606 | every state of every run from empty tables satisfies the invariant |
| `Replies.ReplyDecidesTheOutcome` | internal/application/calls.go:624-665 | from the send of a call to its row: when the sender's update takes the row out of SENT it is succeeded without a code and one unit of usage for a result, failed with the tool's code for a tool error, failed with the answer's own code for an answer, and UNKNOWN with its own code and no usage without an outcome, and that is what is to be reported |
| `Replies.ReplyDecidesTheReport` | internal/application/calls.go:685-711 | what is filed at the first sequence later in the run is the outcome and usage of that reply, unless the call was settled before an observation was recorded |
| `Replies.SendContextIsBounded` | internal/application/calls.go:564-567 | no send context outlasts the call's deadline, or the send timeout after its marker |
| `Replies.SendContextStarts` | internal/application/calls.go:537-567 | it starts once everything was read, as the earlier of the two; a failed read cancels |
| `Outcomes.ControlDecidesTheAdmission` | internal/application/calls.go:495-534 | from Control's answer to the row: a refusal is denied with its code, anything else admitted, each under the dispatch Control named |
| `Outcomes.WhyCanceling` | internal/application/calls.go:537-622 | a thread cancels an admitted call only because something could not be read, it was refused a token or session, its bound elapsed, its grant was no longer executable, or the permission was another's, and with the code of that reason |
| `Outcomes.CanceledRow` | internal/application/calls.go:669-681 | a canceled call records the reason and zero usage, and nothing else of it changes |
| `Outcomes.DeclaredUnknown` | internal/application/calls.go:447-468 | only a sent call is declared UNKNOWN by a reconciler, operator or stop, with the code for it |
| `Outcomes.ReportedRow` | internal/application/calls.go:685-711 | what is reported of a row: its dispatch, its sequence, its outcome, and its usage, zero when none is recorded and none for UNKNOWN |
| `Outcomes.ObservedRow` | internal/application/calls.go:685-711 | a recorded observation advances the sequence by one, once for each sequence, and writes nothing else |
| `Outcomes.ControlDecidesTheSettlement` | internal/application/calls.go:875-901 | from Control's record to the row: an UNKNOWN call is failed when nothing was sent, succeeded when success was observed, and otherwise failed with the observed outcome in its code |
| `Outcomes.LoadGoesOn` | internal/application/calls.go:479-493 | the dispatch of a call asks for its admission while it is accepted, reports an outcome not observed yet, and else ends |
| `Outcomes.ReconcilerGoesOn` | internal/application/calls.go:772-801 | what the reconciler starts for a listed call in each state |
| `Outcomes.OperatorGoesOn` | internal/application/calls.go:852-872 | what the operator's run starts: accepted and admitted calls are left alone, an UNKNOWN one is asked about |
| `Outcomes.ReportGoesOn` | internal/application/calls.go:685-711 | a report is filed as the row read earlier says; answered it is acknowledged, unanswered only the operator goes on |
| `Outcomes.ThreadWaits` | internal/application/calls.go:479-493 | until a step of its own a thread stays where it is |
| `Decisions.RevocationIsABarrier` | internal/application/grants.go:263-349 | a revocation that matches its grant puts it into the barrier with the reason given, it is never executable again, and from then on no call of it is inserted or marked by anyone |
| `Decisions.ApprovedWasReviewed` | internal/application/catalog.go:354-399 | every approved revision was approved by an earlier review of its tenant, on its digest, by an actor other than its discoverer |
| `Decisions.RejectedIsNeverApproved` | internal/domain/catalog.go:390-407 | a rejected or disabled revision is never approved |
| `Decisions.CreatedCall` | internal/application/calls.go:315-382 | a creating transaction inserts a call only when the tables it finds allow it |
| `Effects.CreateCallEffect` | internal/application/calls.go:315-382 | a call is inserted if and only if its identity is new, the grant is the caller's by tenant and subject, at the named revision, active with a receipt and not expired, the tool is granted and in the approved revision the grant is bound to, arguments and route are in order, and no call of the tenant to the server is UNKNOWN; with exactly these columns |
| `Effects.AdmissionEffect` | internal/adapters/postgres/queries/calls.sql:25-27 | an admission changes exactly an accepted row, in these columns |
| `Effects.OutcomeEffect` | internal/adapters/postgres/queries/calls.sql:33-36 | an outcome changes exactly a row in the expected state, in these columns |
| `Effects.AbandonEffect` | internal/adapters/postgres/queries/calls.sql:38-45 | a sent row whose marker is older than the age becomes UNKNOWN, and no other |
| `Effects.ObservationEffect` | internal/adapters/postgres/queries/calls.sql:47-49 | an observation changes exactly a row at its sequence, in these columns |
| `Effects.MarkerEffect` | internal/application/calls.go:603-622 | a marker is set if and only if the row is admitted and unmarked and its grant is at its revision, active with a receipt and not expired |
| `Effects.RevokeEffect` | internal/application/grants.go:263-312 | a grant of the tenant at the revision that is not withdrawn becomes revoking with the reason, its old code when there is none, and nothing else changes; otherwise nothing does |
| `Effects.RegisterEffect` | internal/application/grants.go:210-258 | a pending grant becomes active with its receipt, failed, or stays pending as uncertain; otherwise nothing changes |
| `Effects.AdvanceEffect` | internal/application/grants.go:390-430 | a revoking grant records the fence and is revoked exactly when it converged and no call was open |
| `Effects.ExpireEffect` | internal/application/grants.go:586-598 | an active grant whose expiry has come is expired, and nothing else |
| `Effects.CreateGrantEffect` | internal/application/grants.go:143-184 | a grant is inserted if and only if its identity is new and the request may be granted on these tables; with exactly these columns |
| `Effects.ReviewEffect` | internal/domain/catalog.go:390-407 | a revision changes by a review if and only if it awaits review, is the tenant's, the digest is its own and the reviewer is not its discoverer; it is then approved exactly on an approval and rejected otherwise |
| `Effects.DiscoverEffect` | internal/application/catalog.go:268-315 | a new digest of a server of the tenant becomes the next revision, awaiting review, with its methods and its discoverer; otherwise nothing changes |
| `Effects.DisableEffect` | internal/application/catalog.go:404-468 | a revision of the tenant that is not disabled is, and exactly its pending and active grants begin their revocation |
| `Effects.DriftEffect` | internal/application/refresh.go:200-222 | the same for a drifted revision that is still approved |
| `Effects.StopEffect` | internal/application/calls.go:447-468 | a stop leaves the tracked sent calls UNKNOWN without usage and every other row as it was |
| `Lifecycle.LifeIsCompleted` | internal/application/calls.go:280-711 | a run from empty tables in which a call is sent once, succeeds with one unit of usage, is reported once and observed, and its grant is revoked to the end |
| `Store.Tables.SetToolRequestAdmission` | internal/adapters/postgres/queries/calls.sql:25-27 | changes one accepted row to the admission and counts it, otherwise nothing |
| `Store.Tables.SetToolRequestMarker` | internal/adapters/postgres/queries/calls.sql:29-31 | marks one admitted, unmarked row and counts it, otherwise nothing |
| `Store.Tables.SetToolRequestOutcome` | internal/adapters/postgres/queries/calls.sql:33-36 | records the outcome of a row in the expected state and counts it, otherwise nothing |
| `Store.Tables.SetAbandonedToolRequestUnknown` | internal/adapters/postgres/queries/calls.sql:38-45 | makes a sent row UNKNOWN exactly when its marker is older than the given age |
| `Store.Tables.SetToolRequestObserved` | internal/adapters/postgres/queries/calls.sql:47-49 | records an observation only at the sequence it was made for |
| `Store.Tables.CountOpenToolRequests` | internal/adapters/postgres/sqlc/catalog.sql.go:14-28 | the size of the set of open calls of a grant revision, zero exactly when there is none |
| `Store.Tables.CreateCall` | internal/application/calls.go:315-382 | inserts the call exactly when the checks hold on the tables and the identity is new |
| `Store.Tables.MarkCall` | internal/application/calls.go:603-622 | commits the marker exactly when the grant is still executable at its revision and the row is admitted |
| `Store.Tables.CreateGrant` | internal/application/grants.go:143-184 | inserts a pending grant bound to the exact approved revision, its expiry truncated to the microsecond, exactly when the checks on the tables and the answer of NewGrant's checks of its terms admit it |
| `GrantTables.DecideAlike` | internal/application/grants.go:143-184 | with any numbering of identities, that transaction on tables holding the revision admits a request exactly when NewGrant does, and the row it inserts has the subject, methods, stored expiry, digest and tenant of the grant NewGrant made |
| `Store.Tables.RegisterGrant` | internal/application/grants.go:210-258 | applies a receipt, a refusal or an uncertain answer only to a grant that is still pending |
| `Store.Tables.RevokeGrant` | internal/application/grants.go:263-312 | starts the barrier of the tenant's grant at the expected revision, once |
| `Store.Tables.RevokeLocked` | internal/application/grants.go:327-349 | moves the locked grant to revoking with the given reason and changes nothing else |
| `Store.Tables.RevokeIn` | internal/application/grants.go:316-325 | does so unless the grant is already in the barrier |
| `Store.Tables.AdvanceGrant` | internal/application/grants.go:395-430 | finalises a revoking grant exactly on a converged fence and a count of zero |
| `Store.Tables.ExpireGrants` | internal/application/grants.go:586-605 | expires exactly the listed active grants whose expiry has come, and counts every listed grant whose row it could lock |
| `Store.Tables.Discover` | internal/application/catalog.go:268-315 | adds the next revision for a new digest and nothing for a known one |
| `Store.Tables.Review` | internal/domain/catalog.go:390-407 | decides a revision awaiting review on its exact digest, never by its discoverer |
| `Store.Tables.DisableLocked` | internal/application/catalog.go:445-468 | disables the revision and revokes every pending or active grant of it, and no other, in one commit |
| `Store.Tables.Disable` | internal/application/catalog.go:404-439 | does so for the tenant's own revision that is not disabled yet |
| `Store.Tables.AcceptDrift` | internal/application/refresh.go:200-222 | does so for a drifted revision that is still approved |
| `Store.Process.Shutdown` | internal/application/calls.go:430-469 | when the drain ends by itself changes nothing; otherwise records UNKNOWN for and counts exactly the tracked calls still marked as sent whose update did not fail, reports those of them it could read back, and changes no other row |
| `Store.Process.RecordUnknown` | internal/application/calls.go:447-468 | the loop over the remaining calls does so one by one |
| `TaskTheorems.AttemptsAreDistinctWorkers` | internal/domain/task.go:325-367 | attempts are the ordinals 1..AttemptCount by pairwise distinct workers, all on record while the generation is open, and at most one worker holds an unexpired lease |
| `TaskTheorems.LostLeaseStaysLost` | internal/domain/task.go:371-381 | a claimant that once was without its lease never again has a heartbeat or a submission change anything of that generation |
| `Trace.ExternalEffectsAreNotReassigned` | internal/domain/task.go:486-556 | if attempt a + 1 of an external-effect generation exists, an earlier step of the run ended attempt a: a failed submission of its own claimant, or the sweep of its expired lease with an answer of Control that nothing was sent |
| `Trace.EndsAreTraced` | internal/application/tasks.go:130-478 | every attempt that is no longer running goes back to an earlier step that ended it while its claimant held the generation: its own submission, the sweep of its lease, the claim that took it over, a cancellation, or a request for another input |
| `Trace.AttemptsEndOnce` | internal/application/tasks.go:210-478 | an attempt ends at one step of a run only, and in one way |
| `Answers.AnswersAreTraced` | internal/application/tasks.go:442-458 | every answer a sweep acts on was obtained at an earlier step, while the attempt it names was the current one |
| `Answers.SweepActsOnAnEarlierAnswer` | internal/application/tasks.go:442-472 | the sweep that ends attempt a acts on an answer obtained during attempt a or an earlier one, and it is attempt a's own if and only if no claim of the generation took effect in between |
| `TaskWitness.StaleAnswer` | internal/application/tasks.go:442-472 | a run from empty tables in which a sweep ends the second attempt of an external effect with a not-sent answer obtained during the first |
| `Trace.UncertainSweepIsTheEnd` | internal/domain/task.go:534-542 | the sweep of an expired external-effect lease without that answer leaves the generation dead for the rest of the run, without a further attempt |
| `TaskTheorems.EarlierAttemptsReleased` | internal/domain/task.go:341-348 | the history has every attempt that another followed as failed by its claimant or expired with the not-sent answer |
| `TaskTheorems.UncertainEffectIsDead` | internal/domain/task.go:534-556 | otherwise the generation is dead and its row never changes again |
| `TaskTheorems.WorkIsBounded` | internal/domain/task.go:486-556 | attempts stay within the frozen bound, a scheduled retry has attempts left, the revision is one plus the committed changes, and at most 2 * MaxAttempts of them are not heartbeats |
| `TaskTheorems.OnlyTheLatestIsOpen` | internal/application/tasks.go:130-192 | all generations of a task but the latest exist, are terminal, and never change |
| `TaskTheorems.OneEventPerGeneration` | internal/domain/event.go:63-67 | requested events are one per generation, with strictly increasing aggregate revision for each task |
| `TaskTheorems.AcceptedOnce` | internal/domain/task.go:433-484 | at most one submission changes a generation to accepted, its result is the one right result of its profile, and both stay for the rest of the run |
| `TaskTheorems.AcceptanceIsAuthorized` | internal/application/tasks.go:331-372 | the accepting submission came from the holder of a valid lease, under an active unexpired grant of the tenant with a receipt, with the frozen input and the one right result |
| `TaskTheorems.RepeatsChangeNothing` | internal/domain/task.go:433-445 | a submission to an accepted generation changes nothing, and is answered only when it repeats the accepted result |
| `TaskTheorems.ClaimIsALease` | internal/domain/task.go:325-381 | until a lease ends its holder renews it by the same length and every other claim is refused; afterwards the holder is refused, and a new worker takes over a reconstructible generation with attempts left but never an external effect |
| `TaskTheorems.RetryWaits` | internal/domain/task.go:486-498 | a failed attempt with attempts left is claimed by a new worker from the end of the retry delay on and not before; without attempts left it is dead |
| `TaskTheorems.AcceptedDriftWithdraws` | internal/application/refresh.go:200-222 | the commit that accepts a recorded drift leaves the revision not approved, with no pending or active grant |
| `TaskPreservation.StepKept` | internal/application/tasks.go:130-478 | every step of the background lane, and every step of the call and grant protocol beside it, keeps the joint invariant |
| `TaskEffects.AcceptedResultIsRight` | internal/domain/task.go:272-293 | an accepted local check has its own reference and the digest of its input bytes, an accepted refresh its own reference and the digest of the recorded verdict |
| `TaskEffects.RightResultIsAccepted` | internal/domain/task.go:433-484 | in every reachable state the holder of a valid lease that submits that result with the frozen input digest under a current grant is accepted |
| `TaskEffects.SubmitRefusals` | internal/domain/task.go:433-463 | who is refused, and how: an unknown generation, a malformed digest, one that does not hold the generation, another input |
| `TaskEffects.SubmitEffect` | internal/domain/task.go:433-498 | what a submission in order does: canceled without a current grant, failed or to be retried on a failure, accepted if and only if it is the one right result, and failed for not matching otherwise; with exactly these columns |
| `TaskEffects.ClaimEffect` | internal/domain/task.go:325-367 | a generation is claimed if and only if the lease is within bounds, the worker is new, attempts are left and it is pending, due for retry, or expired and reconstructible; with exactly these columns and attempt |
| `TaskEffects.ClaimAttemptsEffect` | internal/application/tasks.go:238-299 | a claim records the attempt it takes over as expired and leaves the others alone |
| `TaskEffects.HeartbeatEffect` | internal/domain/task.go:371-381 | a lease is extended by the length it was granted if and only if its holder asks before it ends |
| `TaskEffects.CancelEffect` | internal/domain/task.go:506-517 | an open latest generation is canceled, a settled one stays |
| `TaskEffects.SweepEffect` | internal/domain/task.go:534-556 | an expired lease is dead, exhausted or to be retried, by its effects, the answer and the attempts left |
| `TaskEffects.RequestEffect` | internal/application/tasks.go:130-198 | the refusals of a request in their order, the same input, and the row of a new generation with the fenced one before it |
| `TaskEffects.ReadBegins` | internal/application/refresh.go:103-137 | a live read begins only for the claimant of a refresh with a valid lease and the frozen input, and only while none is on record |
| `TaskEffects.ReadIsRecorded` | internal/application/refresh.go:156-180 | a recorded read says what it read against what was reviewed, and the first record stays |
| `TaskEffects.SweepLeavesAlone` | internal/application/tasks.go:442-458 | a lease whose row is gone or whose query failed is left alone; a reconstructible one is not asked about |
| `TaskStore.Tasks.Apply` | internal/application/tasks.go:210-225 | a compare-and-set on the revision that was read, with the outcome of the current attempt |
| `TaskStore.Tasks.Latest` | internal/application/tasks.go:149-150 | the greatest generation of the task, zero when there is none |
| `TaskStore.Tasks.Request` | internal/application/tasks.go:130-198 | the existing generation, returned as such, for the same input, otherwise the next one, returned, with its event and the previous one fenced; a refusal rolls everything back |
| `TaskStore.Tasks.Claim` | internal/application/tasks.go:238-299 | one claimant and its attempt, the expired one before it recorded, and the row as it now stands returned; a refusal changes nothing |
| `TaskStore.Tasks.Heartbeat` | internal/application/tasks.go:302-327 | extends the lease of its current holder by the length it was granted and returns the row, otherwise changes nothing |
| `TaskStore.Tasks.Submit` | internal/application/tasks.go:331-393 | the decision, the attempt and, for an accepted drift, the withdrawal of the revision in one commit |
| `TaskStore.Tasks.Cancel` | internal/application/tasks.go:410-430 | cancels the latest generation when it is open, and says so exactly then |
| `TaskStore.Tasks.SweepExpired` | internal/application/tasks.go:435-478 | settles the listed leases one by one and counts those it settled; an external effect whose query failed is left alone |
| `TaskStore.Tasks.Record` | internal/adapters/postgres/sqlc/catalog.sql.go:656-660 | the first record of a generation wins |
| `Joint.RunProjects` | internal/application/tasks.go:331-372 | every run of the background lane together with the protocol is, in its calls, grants and catalog, a run of the protocol, an accepted drift being its withdrawal step |
| `Joint.RevokedMeansSettled` | internal/application/grants.go:355-430 | beside the lane too, all calls of a revoked grant are terminal and stay so |
| `Joint.DriftIsNeverMarked` | internal/application/refresh.go:200-222 | once a submission accepted the drift of an approved revision, no call of that revision is ever marked as sent again |
| `Replica.Process.Create` | internal/application/calls.go:315-382 | the creating transaction run on the tables object is the step the thread is at, and keeps the invariant |
| `Replica.Process.RecordAdmission` | internal/application/calls.go:495-534 | the recorded admission run on the tables object is the step the thread is at, and keeps the invariant |
| `Replica.Process.Mark` | internal/application/calls.go:603-622 | the marker transaction run on the tables object is the step the thread is at, and keeps the invariant; the thread goes on to send exactly when it marked the row |
| `Replica.Process.Conclude` | internal/application/calls.go:624-665 | the recorded outcome run on the tables object is the step the thread is at, and keeps the invariant |
| `Replica.Process.Cancel` | internal/application/calls.go:669-681 | the cancellation run on the tables object is the step the thread is at, and keeps the invariant |
| `Replica.Process.Abandon` | internal/application/calls.go:772-789 | the UNKNOWN of a call past its send bound run on the tables object is the step the thread is at, and keeps the invariant |
| `Replica.Process.Stop` | internal/application/calls.go:447-468 | the UNKNOWN of a stop run on the tables object is the step the thread is at, and keeps the invariant |
| `Replica.Process.Acknowledge` | internal/application/calls.go:685-711 | the recorded observation run on the tables object is the step the thread is at, and keeps the invariant |
| `Replica.Process.Settle` | internal/application/calls.go:875-901 | the settlement run on the tables object is the step the thread is at, and keeps the invariant |
| `Replica.Process.Register` | internal/application/grants.go:210-258 | the recorded registration run on the tables object is the step the thread is at, and keeps the invariant |
| `Replica.Process.Count` | internal/application/grants.go:382-385 | the count of open calls is the step before the finalising transaction, and says whether there was none |
| `Replica.Process.Finalize` | internal/application/grants.go:390-430 | the finalising transaction, with the count read earlier, run on the tables object is the step the thread is at, and keeps the invariant |
| `Replica.Process.CreateGrant` | internal/application/grants.go:143-184 | the creating transaction of a grant is a step of the protocol and keeps the invariant |
| `Replica.Process.Revoke` | internal/application/grants.go:263-312 | the revoking transaction is a step of the protocol and keeps the invariant |
| `Replica.Process.Discover` | internal/application/catalog.go:268-315 | the discovering transaction is a step of the protocol and keeps the invariant |
| `Replica.Process.Review` | internal/application/catalog.go:354-399 | the reviewing transaction is a step of the protocol and keeps the invariant |
| `Replica.Process.Disable` | internal/application/catalog.go:404-439 | the disabling transaction is a step of the protocol and keeps the invariant |
| `Replica.Process.Environment` | internal/application/calls.go:280-901 | any step of the clock, of Control or of any thread of this process or another may come in between: the tables become what it left, and the invariant is kept |
| `Lane.Owner.Request` | internal/application/tasks.go:130-198 | the requesting transaction run on the tables object is a step of the joint system and keeps its invariant |
| `Lane.Owner.Claim` | internal/application/tasks.go:238-299 | the claiming transaction, whose returned row its worker then holds, run on the tables object is a step of the joint system and keeps its invariant |
| `Lane.Owner.Heartbeat` | internal/application/tasks.go:302-327 | the extending transaction run on the tables object is a step of the joint system and keeps its invariant |
| `Lane.Owner.Submit` | internal/application/tasks.go:331-393 | the submitting transaction, with the withdrawal of a drifted revision, run on the tables object is a step of the joint system and keeps its invariant |
| `Lane.Owner.Cancel` | internal/application/tasks.go:410-430 | the cancelling transaction run on the tables object is a step of the joint system and keeps its invariant |
| `Lane.Owner.Ask` | internal/application/tasks.go:442-458 | reading the row and asking Control is a step of the joint system of its own |
| `Lane.Owner.Sweep` | internal/application/tasks.go:459-472 | the settling transaction of one lease, with an answer obtained before it, run on the tables object is a step of the joint system and keeps its invariant |
| `Lane.Owner.Environment` | internal/application/tasks.go:130-478 | any step of the rest of the joint system may come in between: the tables become what it left, and the invariant is kept |
| `Catalog.NormalizeSet` | internal/domain/catalog.go:360-369 | the strictly increasing list of exactly the folded texts that are not empty |
| `Catalog.NormalizeIsIdempotent` | internal/domain/catalog.go:360-369 | normalizing again changes nothing |
| `Catalog.SortNamed` | internal/domain/catalog.go:371-378 | the same entries in the order of their keys; which of the possible orders is not promised |
| `Catalog.BuildDescriptor` | internal/domain/catalog.go:256-345 | the descriptor, or the refusal, is that of the building function for one of the possible orders of the named lists |
| `Catalog.BuildSorted` | internal/domain/catalog.go:256-345 | the checks in their order, the filled and deleted map, the bound methods and the expected digest compute the building function |
| `Catalog.ScopeHasTheHost` | internal/domain/catalog.go:267-270 | the network scope is exactly the declared one and the resource's own host, sorted, without repeats |
| `Catalog.AnnotationsByMeaning` | internal/domain/catalog.go:180-215 | annotations digest alike exactly when they say the same once the defaults are written out; absent annotations are all defaults |
| `Catalog.DeclaredIs` | internal/domain/catalog.go:274-283 | the declarations are accepted if and only if names are present and distinct and prices are well-formed, and each is then found by its name |
| `Catalog.BoundIs` | internal/domain/catalog.go:284-320 | the live methods bind if and only if their names are distinct and each meets its own declaration; what is left is what no live method names |
| `Catalog.SchemasAreLive` | internal/domain/catalog.go:285-312 | the schemas kept are exactly the live input schemas, each under the name of its method |
| `Listing.BuildsExactly` | internal/domain/catalog.go:256-345 | a descriptor is built if and only if the listing can be connected to and declares well, the server speaks the declared protocol, and its methods are exactly the declared ones with the declared schemas; with an expected digest only under that digest |
| `Listing.EveryDeclarationIsMet` | internal/domain/catalog.go:286-320 | for every declaration there is exactly one live method of its name, whose schemas digest as declared, an absent one as null |
| `Listing.RefusedEarly` | internal/domain/catalog.go:256-283 | the refusals before any live method is looked at, in their order |
| `Listing.RefusedAtMethod` | internal/domain/catalog.go:286-308 | behind methods that bind, one that is not declared, named before, or has a differing schema is a mismatch, and one that cannot be digested is invalid |
| `Listing.RefusedForMissing` | internal/domain/catalog.go:313-320 | a declared method that is not live is a mismatch when everything else is in order |
| `Refresh.BuildIs` | internal/domain/catalog.go:256-345 | what a successful build holds: the sorted bound methods, the scope with the host, the normalized licenses, the lists, the server's identity, and the digest over them |
| `Refresh.Compare` | internal/application/refresh.go:156-165 | the live digest, the drift and its parts as Advance records them |
| `Refresh.NoDriftExactly` | internal/application/refresh.go:156-168 | no drift is recorded if and only if the server's identity and the meaning of its methods are the same and its named lists sorted the same |
| `Refresh.NoDriftCoversFields` | internal/domain/catalog.go:352-358 | without drift every field the digest covers is the reviewed one |
| `Refresh.RebuildSucceeds` | internal/application/refresh.go:227-234 | rebuilding from the reviewed declaration against the same server, in any order of its methods and lists, always succeeds |
| `Refresh.RefreshRoundTrip` | internal/application/refresh.go:227-234 | with any deterministic sort that compares keys only, no reading of the same server is taken for drift, whatever the order it lists things in, if and only if different entries of its named lists have different keys |
| `Refresh.NoFalseDrift` | internal/domain/catalog.go:371-378 | with separate keys no sort, stable or not, makes a reading of the same server drift |
| `Refresh.NulFreeNamesAreSeparate` | internal/domain/catalog.go:371-378 | names without NUL keep the keys of different entries apart |
| `Refresh.NulIsNotSeparated` | internal/domain/catalog.go:376 | with NUL in a name two different entries can share a key |
| `Refresh.DriftReason` | internal/application/refresh.go:237-266 | the parts that differ, in order |
| `Refresh.PartsNameTheDifference` | internal/application/refresh.go:237-266 | a part is named exactly when it differs; of a method the first of its schemas and annotations that does |
| `Refresh.DriftIsNamed` | internal/application/refresh.go:237-266 | for a server that can be rebuilt a drift always has a named part and a named part always is a drift |
| `Sorting.SortIsDetermined` | internal/domain/catalog.go:371-378 | the result of a sort by a key is determined if and only if different elements have different keys |
| `Sorting.KeySortIsDetermined` | internal/domain/catalog.go:371-378 | the result of a given sort that compares keys only is the same for every order of its input if and only if different elements have different keys |
| `GrantRules.NewGrant` | internal/domain/grant.go:91-170 | the checks in their order, each with its refusal, and the grant they let through |
| `GrantRules.GrantedExactly` | internal/domain/grant.go:91-170 | a grant is made if and only if the request names the approved revision, a subject of the caller, names the revision offers without repeating a method, a class within the descriptor's, a cap, a purpose and a future expiry; its names are sorted without repeats and the same ones |
| `GrantRules.GrantedFields` | internal/domain/grant.go:157-170 | what a grant holds of the request and of the revision, column by column |
| `GrantRules.RefusedFor` | internal/domain/grant.go:91-163 | the first check that fails decides the refusal |
| `GrantRules.ClassOrder` | internal/domain/catalog.go:43-47 | the classes are ordered public, internal, confidential, restricted, and no other is one |
| `GrantRules.OrderDoesNotMatter` | internal/domain/grant.go:172-177 | requests that name the same methods, resources and prompts in another order become the same grant |
| `GrantRules.StoredExpiryHasPassed` | internal/domain/grant.go:151-159 | an admissible request becomes a grant whose stored expiry has already come exactly when its expiry lies in the microsecond of its creation |
| `Expiry.NeverExecutableExactly` | internal/domain/grant.go:151-159 | a grant created with an expiry is never executable in any continuation of its run if and only if its expiry lies in that microsecond |
| `Expiry.ExpiredGrantIsCreated` | internal/domain/grant.go:151-159 | a run from empty tables creates a grant that is stored as already expired, from a request whose expiry lay in the future |
| `Encoding.DigestLines` | internal/domain/grant.go:195-203 | writes the prefix and the length-prefixed lines, and nothing else writes the same |
| `Encoding.DimensionsAre` | internal/domain/grant.go:181-193 | the eighteen dimensions in their fixed order, each behind its label |
| `Encoding.KeysAre` | internal/domain/grant.go:205-215 | the policy digest and the cache key are over those lines under their own headings |
| `Encoding.LinesSample` | internal/domain/grant.go:195-203 | a line is its length in decimal, a colon, the text and a newline |
| `Encoding.DecodesLines` | internal/domain/grant.go:195-203 | the encoding has a left-inverse decoder |
| `Encoding.PreimageInjective` | internal/domain/grant.go:195-203 | equal pre-images come exactly from equal prefixes and equal lists |
| `Encoding.KeysAlike` | internal/domain/grant.go:181-215 | two grant revisions share a cache key, or a policy digest, if and only if every single-valued dimension is equal and their lists are equal once cut at commas |
| `Encoding.KeyNamesTheRevision` | internal/domain/grant.go:207-215 | a different grant id or revision never shares a cache key or a policy digest |
| `Encoding.KindsAreDisjoint` | internal/domain/grant.go:205-215 | no policy digest is a cache key, of any two grants |
| `Encoding.PlainKeysAreWhole` | internal/domain/grant.go:211-215 | with non-empty names free of commas, equal keys mean equal grants in every dimension |
| `Encoding.CommaIsNotSeparated` | internal/domain/grant.go:181-193 | with a comma in a method name two different method lists share a key |
| `Walker.CheckObject` | internal/domain/call.go:150-164 | accepts a text if and only if it is the lexemes of one JSON object in which no object repeats a name and whose nesting is at most 64, consumed to its end |
| `Walker.AcceptedExactly` | internal/domain/call.go:150-210 | the walk accepts exactly those lexeme sequences; truncated, malformed and trailing input is refused |
| `Walker.Decoder.WalkObject` | internal/domain/call.go:166-187 | behind an opening brace, succeeds exactly on the rest of an acceptable object and stops behind it |
| `Walker.Decoder.WalkValue` | internal/domain/call.go:189-210 | where a value is expected, succeeds exactly on an acceptable value and stops behind it |
| `Walker.Decoder.WalkArray` | internal/domain/call.go:201-207 | behind an opening bracket, succeeds exactly on the rest of an acceptable array and stops behind it |
| `Paging.PageIs` | internal/adapters/postgres/queries/calls.sql:51-62 | a page is in key order, holds only selected rows, leaves out only rows behind it, and none unless it is full |
| `Paging.EveryEligibleCallIsVisited` | internal/application/calls.go:726-763 | for every batch of at least one, a completed pass visits every call eligible at its start that no one else writes before its visit, whatever happens to every other row and to rows already visited |
| `Paging.ListedExactly` | internal/adapters/postgres/queries/calls.sql:51-62 | a call is listed if and only if something is left to do about it and it was left alone for longer than the age, a marked one for longer than the send age since its marker |
| `Paging.OldestFirst` | internal/adapters/postgres/queries/calls.sql:51-62 | calls are visited in the order in which they were last changed, and within an instant of their identity |
| `Paging.VisitsAreOrdered` | internal/application/calls.go:726-763 | in any environment the visited keys strictly increase, so a call is visited again only if it was re-stamped |
| `Paging.FixedTableIsWalkedOnce` | internal/application/calls.go:726-763 | over rows that do not change, while the clock of the queries runs on, the pass ends within one query more than there are full pages of rows, visits no call twice and only calls eligible at the query that lists them, and once it ends has visited every call eligible at its start |
| `Paging.FixedInstantIsWalkedExactly` | internal/application/calls.go:726-763 | within one instant a completed pass visits exactly the eligible calls, each once |
| `Paging.VisitedIsListed` | internal/adapters/postgres/queries/calls.sql:51-62 | in any environment every visited call is eligible at the query that lists it, under its key at that query |
| `Paging.Reconciler.Reconcile` | internal/application/calls.go:726-763 | the pages and the total are those of the pass; a completed pass keeps the schedule of listed calls only, and never brings one forward |
| `Paging.Reconciler.DueForResolve` | internal/application/calls.go:805-819 | a call is asked about only once its scheduled instant has come, and is then scheduled again |

## Left out

- Transport, TLS, identity reloading, bootstrap, configuration loading, metrics, logging and the Helm chart: no logic of these state machines. Only the rule on the reconcile age is kept.
- ContextForge, the Go SDK session, OAuth tokens, DNS and egress rules: `Open` and `Send` answer anything (a refusal, a result, a tool error, an answer, no outcome).
- Control: only its contract is modelled, a single permission for each call, one recorded dispatch, barrier answers. Whether its not-sent evidence about a dispatch is final is not modelled: a sweep may act on any answer ever obtained.
- PostgreSQL: a transaction is one atomic step. A deadlock or failed commit is a write lost before its effect, a lost connection one lost after it. The external clock and the database clock are one.
- SHA-256 and canonical JSON: digests are pre-images, so collisions and the replacement of invalid UTF-8 are not modelled. URL parsing, JSON scanning and schema validation are given by their results.
- Command replay (`GetToolRequestByCommand`, `replayCommand`): a repeated command is a call whose identity exists already, which inserts nothing.
- Result payloads, evidence columns, policy epochs, reviewer columns and the in-flight counters of a grant: carried, never decided on.
- Outbox events of catalog and grant changes, and the milestones of `revocationMilestones`: written beside the transitions, never read by them. The requested events of background tasks are modelled.
- Role bindings, `RevisionGate`, the token cache and the network address rules: separate and easy.
- Shutdown in the transition system may act on any call at any time, which covers the drain of a process; `Store.Process.Shutdown` is the exact loop.
- The throttle of Control queries is nondeterministic in the transition system; `Paging.Reconciler` has it exactly.
- The hold on a server with an UNKNOWN call is checked when a call is created, as in the source; it is not claimed that no call is ever inserted while one exists, since that check takes no lock.
- `ControlState` of a grant is not claimed to be monotone: a slower replica may write an older barrier answer.
- Catalog.NormalizeSet: folds and trims ASCII letters and white space only, because Unicode case tables are not modelled.
- Store.Tables.CreateGrant: takes the answer of the data class, cost cap, purpose and selector checks as given, because no later step reads them; `GrantRules.NewGrant` has the checks and `GrantTables.DecideAlike` the agreement.
- Paging.EveryEligibleCallIsVisited: says nothing about a pass that a cancelled context or a failed query cuts short, because the source returns early then.
- Encoding.KeysAlike: takes the expiry as its rendered text, because the rendering of an instant is a library's; it asks for the three-letter currency that `NewGrant` checks.
- Retention removes only attempts of terminal requests in the model; the removal of other tables' old rows is left out.
