/** What each transaction of the background lane changes, column by column, and when: stated on the rows before and
    after. */
module TaskEffects {
  import opened Basics
  import opened TaskRules
  import opened TaskTables
  import opened TaskInvariant
  import Rows
  import Sql
  import TaskStore
  import TaskSystem
  import TaskPreservation
  import TaskTheorems

  /** Of the tables at most this generation's row and attempts differ. */
  ghost predicate OnlyGeneration(tb: Tables, tb': Tables, k: Key) {
    && k in tb.rows && tb'.rows.Keys == tb.rows.Keys && tb'.refreshes == tb.refreshes && tb'.events == tb.events
    && (forall x | x in tb.rows && x != k :: tb'.rows[x] == tb.rows[x])
    && tb'.attempts.Keys == tb.attempts.Keys + {k}
    && (forall x | x in tb.attempts && x != k :: tb'.attempts[x] == tb.attempts[x])
  }

  /** The attempts with the outcome of one of them recorded. */
  ghost predicate Marked(before: map<nat, Attempt>, after: map<nat, Attempt>, ordinal: nat, outcome: AttemptOutcome) {
    && after.Keys == before.Keys
    && forall o | o in before :: after[o] == if o == ordinal && o > 0 then before[o].(outcome := outcome) else before[o]
  }

  /** The worker holds the generation: its row, its attempt and its lease say so. */
  predicate HeldBy(tb: Tables, k: Key, w: Id, now: Time) {
    && k in tb.rows && tb.rows[k].state == Leased && tb.rows[k].worker == Some(w) && now < tb.rows[k].leaseUntil
    && k in tb.attempts && tb.rows[k].attemptCount in tb.attempts[k]
    && tb.attempts[k][tb.rows[k].attemptCount].worker == w
  }

  // ---------------------------------------------------------------- claim and heartbeat

  predicate Claimable(tb: Tables, k: Key, worker: Id, lease: Time, now: Time, bounds: Bounds) {
    && k in tb.rows && 0 < lease <= bounds.maxLease
    && (k in tb.attempts ==> forall o | o in tb.attempts[k] :: tb.attempts[k][o].worker != worker)
    && var t := tb.rows[k];
    && t.attemptCount < t.maxAttempts
    && (|| t.state == Pending
        || (t.state == RetryScheduled && (t.retryAt == None || t.retryAt.value <= now))
        || (t.state == Leased && t.leaseUntil <= now && t.effects == Reconstructible))
  }

  function ClaimedRow(t: Task, worker: Id, lease: Time, now: Time): Task {
    t.(state := Leased, worker := Some(worker), leaseUntil := now + lease, attemptCount := t.attemptCount + 1,
       retryAt := None, failure := NoFailure, revision := t.revision + 1)
  }

  lemma ClaimEffect(tb: Tables, k: Key, worker: Id, lease: Time, now: Time, bounds: Bounds)
    ensures var tx := ClaimTx(tb, k, worker, lease, now, bounds);
      && (tx.Ok? <==> Claimable(tb, k, worker, lease, now, bounds))
      && (tx.Ok? ==> OnlyGeneration(tb, tx.value, k))
      && (tx.Ok? ==> tx.value.rows[k] == ClaimedRow(tb.rows[k], worker, lease, now))
      && (tx.Ok? ==>
            var n := tb.rows[k].attemptCount + 1;
            n in tx.value.attempts[k] && tx.value.attempts[k][n] == Attempt(n, worker, now, now + lease, NoOutcome))
  {
  }

  /** A claim records the attempt it takes over as expired and leaves all others alone. */
  lemma ClaimAttemptsEffect(tb: Tables, k: Key, worker: Id, lease: Time, now: Time, bounds: Bounds, o: nat)
    requires ClaimTx(tb, k, worker, lease, now, bounds).Ok? && k in tb.attempts && o in tb.attempts[k]
    requires o != tb.rows[k].attemptCount + 1
    ensures var after := ClaimTx(tb, k, worker, lease, now, bounds).value.attempts[k];
      && o in after
      && after[o] == if tb.rows[k].state == Leased && o == tb.rows[k].attemptCount && o > 0
                     then tb.attempts[k][o].(outcome := AttemptExpired) else tb.attempts[k][o]
  {
  }

  lemma HeartbeatEffect(tb: Tables, k: Key, worker: Id, now: Time)
    ensures var tx := HeartbeatTx(tb, k, worker, now);
      && (tx.Ok? <==> HeldBy(tb, k, worker, now))
      && (tx.Err? ==> tx.error == if k in tb.rows then StaleExecution else NotFound)
      && (tx.Ok? ==> OnlyGeneration(tb, tx.value, k) && tx.value.attempts == tb.attempts)
      && (tx.Ok? ==> var mine := tb.attempts[k][tb.rows[k].attemptCount];
            tx.value.rows[k] == tb.rows[k].(leaseUntil := now + mine.leaseUntil - mine.leasedAt,
                                            revision := tb.rows[k].revision + 1))
  {
    if k in tb.attempts { assert tb.attempts[k := tb.attempts[k]] == tb.attempts; }
  }

  // ---------------------------------------------------------------- submit

  /** The row of a failed attempt: dead without attempts left, otherwise to be retried after the delay. */
  function FailedRow(t: Task, failure: Failure, now: Time, bounds: Bounds): Task {
    var ended := t.(failure := failure, revision := t.revision + 1, leaseUntil := 0);
    if t.attemptCount < t.maxAttempts
    then ended.(state := RetryScheduled, worker := None, retryAt := Some(now + bounds.retryDelay))
    else ended.(state := Dead)
  }

  /** Who is refused, and how. */
  lemma SubmitRefusals(tb: Tables, db: Rows.Db, k: Key, sub: Submission, now: Time, bounds: Bounds)
    ensures var tx := SubmitTx(tb, db, k, sub, now, bounds);
      if k !in tb.rows then tx == Err(NotFound)
      else if tb.rows[k].authorization.None? || sub.inputDigest.Malformed? then tx == Err(Invalid)
      else if tb.rows[k].state != Accepted && !HeldBy(tb, k, sub.worker, now) then tx == Err(StaleExecution)
      else tb.rows[k].state != Accepted && sub.inputDigest != Sha(OfInput(tb.rows[k].input)) ==> tx == Err(Invalid)
  {
    hide Current, Recorded, ExpectedResult, Sql.AcceptDrift;
  }

  /** The submission of a holder with the frozen input digest. */
  predicate InOrder(tb: Tables, k: Key, sub: Submission, now: Time) {
    && HeldBy(tb, k, sub.worker, now) && tb.rows[k].authorization.Some?
        && sub.inputDigest == Sha(OfInput(tb.rows[k].input))
  }

  /** What it does: without a current grant the generation is canceled; a failure fails the attempt; a success is
      accepted if and only if it is the one right result, and otherwise fails the attempt for not matching. */
  lemma SubmitEffect(tb: Tables, db: Rows.Db, k: Key, sub: Submission, now: Time, bounds: Bounds)
    requires InOrder(tb, k, sub, now)
    requires tb.rows[k].profile == LocalCheckProfile ==> tb.rows[k].input.LocalCheckInput?
    ensures var tx, t := SubmitTx(tb, db, k, sub, now, bounds), tb.rows[k];
      if !Authorized(db, t, now) then
        && Changed(tb, k, tx, t.(state := Canceled, failure := AuthorizationRevoked, revision := t.revision + 1,
                                 leaseUntil := 0), AttemptStale)
        && tx.value.db == db && !tx.value.decision.accepted
      else if !sub.succeeded then
        && Changed(tb, k, tx, FailedRow(t, if sub.failure == NoFailure then HandlerFailed else sub.failure, now,
                                        bounds), AttemptFailed)
        && tx.value.db == db && !tx.value.decision.accepted
      else if sub.resultDigest.Malformed? then tx == Err(Invalid)
      else if RightResult(tb, k, sub.resultRef, sub.resultDigest) then
        && Changed(tb, k, tx, t.(state := Accepted, resultRef := sub.resultRef, resultDigest := sub.resultDigest,
                                 failure := NoFailure,
                                 revision := t.revision + 1, leaseUntil := 0), AttemptAccepted)
        && tx.value.decision.accepted
      else
        && Changed(tb, k, tx, FailedRow(t, ProfileMismatch, now, bounds), AttemptFailed)
        && tx.value.db == db && !tx.value.decision.accepted
  {
    AuthorizedIsCurrent(db, tb.rows[k], now);
    RightIsExpected(tb, k, sub.resultRef, sub.resultDigest);
    var t := tb.rows[k];
    var current := CurrentAttempt(tb, k, t);
    assert current == Some(tb.attempts[k][t.attemptCount]);
    DecidesSo(t, current, sub, Authorized(db, t, now), now, bounds, Recorded(tb, k, t),
              RightResult(tb, k, sub.resultRef, sub.resultDigest));
    AppliedChanges(tb, k, t);
    hide DecideSubmit, Current, Recorded, RightResult, ExpectedResult, Authorized, Sql.AcceptDrift, Applied;
  }

  /** The row and the outcome of its current attempt are written, and nothing else of the lane. */
  ghost predicate Changed(tb: Tables, k: Key, tx: Result<SubmitEffect, Error>, row: Task, outcome: AttemptOutcome) {
    && tx.Ok? && tx.value.decision.changed && OnlyGeneration(tb, tx.value.tb, k) && tx.value.tb.rows[k] == row
    && k in tb.attempts && Marked(tb.attempts[k], tx.value.tb.attempts[k], row.attemptCount, outcome)
  }

  lemma AppliedChanges(tb: Tables, k: Key, t: Task)
    requires k in tb.rows
    ensures forall t': Task, outcome: AttemptOutcome | t'.attemptCount == t.attemptCount && outcome != NoOutcome ::
        var tb' := Applied(tb, k, t', outcome);
        OnlyGeneration(tb, tb', k) && tb'.rows[k] == Stored(t')
            && Marked(AttemptsOf(tb, k), tb'.attempts[k], t.attemptCount, outcome)
  {
    forall t': Task, outcome: AttemptOutcome | t'.attemptCount == t.attemptCount && outcome != NoOutcome
      ensures var tb' := Applied(tb, k, t', outcome);
        OnlyGeneration(tb, tb', k) && tb'.rows[k] == Stored(t')
            && Marked(AttemptsOf(tb, k), tb'.attempts[k], t.attemptCount, outcome)
    {
    }
  }

  lemma DecidesSo(t: Task, current: Option<Attempt>, sub: Submission, authorized: bool, now: Time, bounds: Bounds,
                  recorded: Option<RecordedResult>, right: bool)
    requires t.state == Leased && t.worker == Some(sub.worker) && current.Some? && current.value.worker == sub.worker
    requires now < t.leaseUntil && sub.inputDigest == Sha(OfInput(t.input)) && ExpectedResult(t, recorded).Ok?
    requires right <==> ExpectedResult(t, recorded).value == Some(RecordedResult(sub.resultRef, sub.resultDigest))
    ensures var d := DecideSubmit(t, current, sub, authorized, now, bounds, recorded);
      if !authorized then
        && d.Ok? && d.value.changed && !d.value.accepted && d.value.outcome == AttemptStale
        && Stored(d.value.task) == t.(state := Canceled, failure := AuthorizationRevoked, revision := t.revision + 1,
                                      leaseUntil := 0)
      else if !sub.succeeded then
        && d.Ok? && d.value.changed && !d.value.accepted && d.value.outcome == AttemptFailed
        && Stored(d.value.task) == FailedRow(t, if sub.failure == NoFailure then HandlerFailed else sub.failure, now,
                                             bounds)
      else if sub.resultDigest.Malformed? then d == Err(Invalid)
      else if right then
        && d.Ok? && d.value.changed && d.value.accepted && d.value.outcome == AttemptAccepted
        && Stored(d.value.task) == t.(state := Accepted, resultRef := sub.resultRef, resultDigest := sub.resultDigest,
                                      failure := NoFailure, revision := t.revision + 1, leaseUntil := 0)
      else
        && d.Ok? && d.value.changed && !d.value.accepted && d.value.outcome == AttemptFailed
        && Stored(d.value.task) == FailedRow(t, ProfileMismatch, now, bounds)
    ensures var d := DecideSubmit(t, current, sub, authorized, now, bounds, recorded);
      d.Ok? ==> d.value.task.attemptCount == t.attemptCount
  {
    hide ExpectedResult;
  }

  // ---------------------------------------------------------------- cancel, sweep, request

  lemma CancelEffect(tb: Tables, latest: nat, task: Id)
    requires IsLatest(tb.rows, task, latest)
    ensures var tx, k := CancelTx(tb, latest, task), Key(task, latest);
      if latest == 0 then tx == Err(NotFound)
      else if tb.rows[k].state == Accepted || tb.rows[k].state == Dead || tb.rows[k].state == Stale
          || tb.rows[k].state == Canceled
      then tx == Ok(tb)
      else
        && tx.Ok? && OnlyGeneration(tb, tx.value, k)
        && tx.value.rows[k] == tb.rows[k].(state := Canceled, failure := CanceledByOwner, leaseUntil := 0,
                                           revision := tb.rows[k].revision + 1)
        && (k in tb.attempts ==>
              if tb.rows[k].state == Leased
              then Marked(tb.attempts[k], tx.value.attempts[k], tb.rows[k].attemptCount, AttemptStale)
              else tx.value.attempts[k] == tb.attempts[k])
  {
  }

  /** The row of an expired lease. */
  function ExpiredRow(t: Task, outcome: DispatchOutcome, now: Time, bounds: Bounds): Task {
    var ended := t.(revision := t.revision + 1, leaseUntil := 0);
    if t.effects == External && outcome != DispatchNotSent then ended.(state := Dead, failure := EffectUncertain)
    else if t.attemptCount >= t.maxAttempts then ended.(state := Dead, failure := AttemptsExhausted, worker := None)
    else ended.(state := RetryScheduled, failure := LeaseExpired, worker := None,
                retryAt := Some(now + bounds.retryDelay))
  }

  lemma ExpiresSo(t: Task, outcome: DispatchOutcome, now: Time, bounds: Bounds)
    ensures var d := DecideExpire(t, outcome, now, bounds);
      if t.state != Leased || now < t.leaseUntil then !d.changed
      else d.changed && d.outcome == AttemptExpired && d.task.attemptCount == t.attemptCount
           && Stored(d.task) == ExpiredRow(t, outcome, now, bounds)
  {
  }

  lemma SweepEffect(tb: Tables, k: Key, outcome: DispatchOutcome, now: Time, bounds: Bounds)
    ensures var tx := SweepTx(tb, k, outcome, now, bounds);
      if k !in tb.rows then tx == Err(NotFound)
      else if tb.rows[k].state != Leased || now < tb.rows[k].leaseUntil then tx == Ok(tb)
      else
        && tx.Ok? && OnlyGeneration(tb, tx.value, k) && tx.value.rows[k] == ExpiredRow(tb.rows[k], outcome, now, bounds)
        && Marked(AttemptsOf(tb, k), tx.value.attempts[k], tb.rows[k].attemptCount, AttemptExpired)
  {
    if k in tb.rows {
      ExpiresSo(tb.rows[k], outcome, now, bounds);
      AppliedChanges(tb, k, tb.rows[k]);
      hide DecideExpire, Applied, ExpiredRow;
    }
  }

  /** The request names what its profile and its effects need. */
  predicate WellFormed(input: RequestInput) {
    && (input.effects == External ==> input.dispatch.Some?)
    && (input.profile == LocalCheckProfile ==> input.input.LocalCheckInput?)
    && (input.profile == CatalogRefreshProfile ==> input.input.RefreshInput? && input.input.revision > 0)
  }

  /** The row of a new generation. */
  function NewRow(input: RequestInput, generation: nat, bounds: Bounds): Task {
    Task(input.task, generation, input.tenant, input.kind, input.profile, input.input, input.effects, input.dispatch,
         input.authorization,
         bounds.maxAttempts, Pending, None, 0, 0, None, NoRef, Malformed, NoFailure, 1)
  }

  /** The row of a fenced generation: settled ones stay, open ones are stale. */
  function FencedRow(t: Task): Task {
    if t.state == Accepted || t.state == Dead || t.state == Stale || t.state == Canceled then t
    else t.(state := Stale, failure := Superseded, revision := t.revision + 1, leaseUntil := 0)
  }

  lemma RequestEffect(tb: Tables, db: Rows.Db, latest: nat, input: RequestInput, now: Time, bounds: Bounds)
    requires IsLatest(tb.rows, input.task, latest)
    ensures var tx := RequestTx(tb, db, latest, input, now, bounds);
      var prev, next := Key(input.task, latest), Key(input.task, latest + 1);
      if !WellFormed(input) then tx == Err(Invalid)
      else if latest > 0 && tb.rows[prev].tenant != input.tenant then tx == Err(Forbidden)
      else if latest > 0 && tb.rows[prev].input == input.input then tx == Ok(tb)
      else if input.authorization.None? then tx == Err(Invalid)
      else if !Authorized(db, NewRow(input, latest + 1, bounds), now) then tx == Err(Forbidden)
      else
        && tx.Ok? && tx.value.events == tb.events + [next] && tx.value.refreshes == tb.refreshes
        && tx.value.rows.Keys == tb.rows.Keys + {next} && tx.value.rows[next] == NewRow(input, latest + 1, bounds)
        && (forall x | x in tb.rows && x != prev :: tx.value.rows[x] == tb.rows[x])
        && (latest > 0 ==> tx.value.rows[prev] == FencedRow(tb.rows[prev]))
  {
    AuthorizedIsCurrent(db, NewRow(input, latest + 1, bounds), now);
    hide Current, Authorized;
    assert Key(input.task, latest + 1) !in tb.rows;
  }

  /** A live read begins only for the claimant of a refresh with a valid lease and the frozen input, and only while
      none is on record. */
  lemma ReadBegins(s: TaskSystem.State, s': TaskSystem.State, k: Key, worker: Id, digest: Digest)
    requires TaskSystem.Next(s, TaskSystem.TStartRead(k, worker, digest), s')
    ensures k in s.tb.rows && k !in s.tb.refreshes
    ensures var t := s.tb.rows[k];
      && t.kind == CatalogRefreshKind && t.profile == CatalogRefreshProfile && t.state == Leased
          && t.worker == Some(worker)
      && s.p.now < t.leaseUntil && digest == Sha(OfInput(t.input))
    ensures s' == s.(readers := s.readers + {TaskSystem.Reader(k, s.tb.rows[k].input)})
  {
  }

  /** A recorded read says what it read against what was reviewed; the first record of a generation stays. */
  lemma ReadIsRecorded(s: TaskSystem.State, s': TaskSystem.State, reader: TaskSystem.Reader, live: Option<Id>)
    requires TaskSystem.Next(s, TaskSystem.TRecord(reader, live), s')
    ensures reader.input.RefreshInput? && reader.key in s'.tb.refreshes && s'.tb.rows == s.tb.rows && s'.p == s.p
    ensures reader.key in s.tb.refreshes ==> s'.tb.refreshes == s.tb.refreshes
    ensures reader.key !in s.tb.refreshes ==>
              var v := s'.tb.refreshes[reader.key];
              && v.server == reader.input.server && v.revision == reader.input.revision
                  && v.reviewed == reader.input.digest
              && v.live == live && (v.drift <==> live != Some(reader.input.digest))
  {
  }

  /** A lease of an external effect whose query failed is left alone, and so is one that is gone. */
  lemma SweepLeavesAlone(tb: Tables, v: TaskStore.Visit, bounds: Bounds)
    ensures v.key !in tb.rows ==> TaskStore.SweepOne(tb, v, bounds) == tb
    ensures v.key in tb.rows && tb.rows[v.key].effects == External && v.answer == None ==>
          TaskStore.SweepOne(tb, v, bounds) == tb
    ensures v.key in tb.rows && tb.rows[v.key].effects == External && v.answer.Some? ==>
              SweepTx(tb, v.key, v.answer.value, v.now, bounds) == Ok(TaskStore.SweepOne(tb, v, bounds))
    ensures v.key in tb.rows && tb.rows[v.key].effects == Reconstructible ==>
              SweepTx(tb, v.key, DispatchUnknown, v.now, bounds) == Ok(TaskStore.SweepOne(tb, v, bounds))
  {
  }

  // ---------------------------------------------------------------- over runs

  /** An accepted generation has the one right result. */
  lemma AcceptedResultIsRight(r: TaskSystem.Run, i: nat, k: Key)
    requires TaskSystem.ValidRun(r) && i < |r.states| && k in r.states[i].tb.rows
        && r.states[i].tb.rows[k].state == Accepted
    ensures var tb := r.states[i].tb; RightResult(tb, k, tb.rows[k].resultRef, tb.rows[k].resultDigest)
    ensures r.states[i].tb.rows[k].task == k.task && r.states[i].tb.rows[k].generation == k.generation
  {
    hide TaskSystem.ValidRun, Inv;
    TaskPreservation.RunInv(r, i);
    TaskTheorems.InvGeneration(r.states[i], k);
    var tb := r.states[i].tb;
    RightIsExpected(tb, k, tb.rows[k].resultRef, tb.rows[k].resultDigest);
  }

  /** In every reachable state, the holder of a valid lease that submits the one right result with the frozen input
      digest, under a current grant, is accepted. */
  lemma RightResultIsAccepted(r: TaskSystem.Run, i: nat, k: Key, sub: Submission, bounds: Bounds)
    requires TaskSystem.ValidRun(r) && i < |r.states| && k in r.states[i].tb.rows
    requires var t, now := r.states[i].tb.rows[k], r.states[i].p.now;
      t.state == Leased && t.worker == Some(sub.worker) && now < t.leaseUntil && Authorized(r.states[i].p.db, t, now)
    requires sub.inputDigest == Sha(OfInput(r.states[i].tb.rows[k].input)) && sub.succeeded
    requires RightResult(r.states[i].tb, k, sub.resultRef, sub.resultDigest)
    ensures var tx := SubmitTx(r.states[i].tb, r.states[i].p.db, k, sub, r.states[i].p.now, bounds);
      tx.Ok? && tx.value.decision.accepted && k in tx.value.tb.rows && tx.value.tb.rows[k].state == Accepted
  {
    hide TaskSystem.ValidRun, Inv, SubmitTx, Authorized;
    TaskPreservation.RunInv(r, i);
    TaskTheorems.InvGeneration(r.states[i], k);
    var s := r.states[i];
    HolderIsHolder(s, k, sub.worker);
    AuthorizationIsNamed(s.p.db, s.tb.rows[k], s.p.now);
    SubmitEffect(s.tb, s.p.db, k, sub, s.p.now, bounds);
  }

  lemma AuthorizationIsNamed(db: Rows.Db, t: Task, now: Time)
    requires Authorized(db, t, now)
    ensures t.authorization.Some?
  {
  }

  lemma HolderIsHolder(s: TaskSystem.State, k: Key, w: Id)
    requires k in s.tb.rows && GenerationOk(s, k) && s.tb.rows[k].state == Leased && s.tb.rows[k].worker == Some(w)
    requires s.p.now < s.tb.rows[k].leaseUntil
    ensures HeldBy(s.tb, k, w, s.p.now)
  {
  }
}
