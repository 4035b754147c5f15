/** The properties of whole runs of the background lane, with the protocol of calls and
    grants running beside it. */
module TaskTheorems {
  import opened Basics
  import opened TaskRules
  import opened TaskTables
  import opened TaskSystem
  import opened TaskInvariant
  import opened TaskPreservation
  import Rows
  import Sql
  import Invariant
  import Preservation

  lemma InvGeneration(s: State, k: Key)
    requires Inv(s) && k in s.tb.rows
    ensures GenerationOk(s, k)
  {
    hide Invariant.Inv;
  }

  // ---------------------------------------------------------------- lease fencing

  /** Attempts are the ordinals 1..AttemptCount by pairwise distinct workers, all of them on record while the
      generation is open, and at most one worker holds an unexpired lease. */
  lemma AttemptsAreDistinctWorkers(r: Run, i: nat, k: Key, w: Id, w': Id)
    requires ValidRun(r) && i < |r.states| && k in r.states[i].tb.rows
    ensures var s := r.states[i]; var t := s.tb.rows[k];
      && k in s.history && k in s.tb.attempts
      && t.attemptCount == |s.history[k].claimants| && Distinct(s.history[k].claimants)
      && (forall o | o in s.tb.attempts[k] ::
          1 <= o <= t.attemptCount && s.tb.attempts[k][o].worker == s.history[k].claimants[o - 1])
      && (!t.state.Terminal() ==> forall o | 1 <= o <= t.attemptCount :: o in s.tb.attempts[k])
      && (Holding(t, w, s.p.now) && Holding(t, w', s.p.now) ==> w == w' && w in s.history[k].claimants)
  {
    hide ValidRun, Inv, CountsOk, ResultOk;
    RunInv(r, i);
    InvGeneration(r.states[i], k);
  }

  /** A claimant that once was without its lease never again has a heartbeat or a new result accepted for that
      generation: at every later step its heartbeat or submission changes nothing. */
  lemma LostLeaseStaysLost(r: Run, i: nat, j: nat, k: Key, w: Id)
    requires ValidRun(r) && i <= j < |r.states| && k in r.states[i].tb.rows && k in r.states[i].history
    requires w in r.states[i].history[k].claimants && !Holding(r.states[i].tb.rows[k], w, r.states[i].p.now)
    ensures k in r.states[j].tb.rows && !Holding(r.states[j].tb.rows[k], w, r.states[j].p.now)
    ensures j < |r.steps| && r.steps[j] == THeartbeat(k, w) ==> r.states[j + 1] == r.states[j]
    ensures j < |r.steps| && r.steps[j].TSubmit? && r.steps[j].key == k && r.steps[j].sub.worker == w ==>
          r.states[j + 1] == r.states[j]
  {
    hide Inv, Init, Next;
    RunEvolves(r, i, j);
    if j < |r.steps| {
      assert Next(r.states[j], r.steps[j], r.states[j + 1]);
      NotHoldingIsRefused(r.states[j], r.steps[j], r.states[j + 1], k, w);
    }
  }

  lemma NotHoldingIsRefused(s: State, step: Step, s': State, k: Key, w: Id)
    requires Next(s, step, s') && k in s.tb.rows && !Holding(s.tb.rows[k], w, s.p.now)
    ensures step == THeartbeat(k, w) ==> s' == s
    ensures step.TSubmit? && step.key == k && step.sub.worker == w ==> s' == s
  {
    hide Environment, Request, Claim, Cancel, Sweep, StartRead, Record, Retain, Sql.AcceptDrift, Current;
  }

  // ---------------------------------------------------------------- external effects

  /** If attempt a + 1 of an external-effect generation exists, the history has attempt a as failed by its claimant or
      as expired with Control's answer that nothing was sent. */
  lemma EarlierAttemptsReleased(r: Run, i: nat, k: Key, a: nat)
    requires ValidRun(r) && i < |r.states| && k in r.states[i].tb.rows && r.states[i].tb.rows[k].effects == External
    requires 1 <= a < r.states[i].tb.rows[k].attemptCount
    ensures k in r.states[i].history && a <= |r.states[i].history[k].ends|
    ensures var e := r.states[i].history[k].ends[a - 1]; e == FailedByClaimant || e == ExpiredAfter(DispatchNotSent)
  {
    hide ValidRun, Inv, CountsOk, ResultOk, AttemptsOk, Distinct;
    RunInv(r, i);
    InvGeneration(r.states[i], k);
    assert Released(External, r.states[i].history[k].ends[a - 1]);
  }

  /** Otherwise the generation is dead: an expired external-effect lease without that answer is followed by nothing. */
  lemma UncertainEffectIsDead(r: Run, i: nat, j: nat, k: Key)
    requires ValidRun(r) && i <= j < |r.states| && k in r.states[i].tb.rows && k in r.states[i].history
    requires |r.states[i].history[k].ends| > 0
    requires Uncertain(r.states[i].tb.rows[k].effects, r.states[i].history[k].ends[|r.states[i].history[k].ends| - 1])
    ensures r.states[i].tb.rows[k].state == Dead
    ensures k in r.states[j].tb.rows && r.states[j].tb.rows[k] == r.states[i].tb.rows[k]
  {
    hide ValidRun, Inv, CountsOk, ResultOk, AttemptsOk, Distinct;
    RunInv(r, i);
    InvGeneration(r.states[i], k);
    RunEvolves(r, i, j);
  }

  // ---------------------------------------------------------------- bounded work

  /** Attempts stay within the frozen bound, a scheduled retry has attempts left, the revision counts the committed
      changes, and a generation undergoes at most 2 * MaxAttempts changes that are not heartbeats (one when it has no
      attempt at all). */
  lemma WorkIsBounded(r: Run, i: nat, k: Key)
    requires ValidRun(r) && i < |r.states| && k in r.states[i].tb.rows
    ensures var s := r.states[i]; var t := s.tb.rows[k];
      && k in s.history
      && t.attemptCount <= t.maxAttempts
      && (t.state == RetryScheduled ==> t.attemptCount < t.maxAttempts)
      && t.revision == 1 + s.history[k].changes + s.history[k].beats
      && s.history[k].changes <= (if t.maxAttempts == 0 then 1 else 2 * t.maxAttempts)
      && (!t.state.Terminal() ==> s.history[k].changes < (if t.maxAttempts == 0 then 1 else 2 * t.maxAttempts))
  {
    hide ValidRun, Inv, ResultOk, AttemptsOk, Distinct;
    RunInv(r, i);
    InvGeneration(r.states[i], k);
  }

  // ---------------------------------------------------------------- generation fencing

  lemma {:induction false} EarlierIsTerminal(rows: map<Key, Task>, k: Key, g: nat)
    requires Fenced(rows) && k in rows && 1 <= g < k.generation
    ensures Key(k.task, g) in rows && rows[Key(k.task, g)].state.Terminal()
    decreases k.generation
  {
    var before := Key(k.task, k.generation - 1);
    assert before in rows && rows[before].state.Terminal();
    if g < k.generation - 1 { EarlierIsTerminal(rows, before, g); }
  }

  /** All generations of a task but the latest exist and are terminal, and a terminal generation never changes. */
  lemma OnlyTheLatestIsOpen(r: Run, i: nat, j: nat, k: Key, g: nat)
    requires ValidRun(r) && i <= j < |r.states| && k in r.states[i].tb.rows && 1 <= g < k.generation
    ensures var e := Key(k.task, g);
      && e in r.states[i].tb.rows && r.states[i].tb.rows[e].state.Terminal()
      && e in r.states[j].tb.rows && r.states[j].tb.rows[e] == r.states[i].tb.rows[e]
  {
    hide ValidRun, GenerationOk;
    RunInv(r, i);
    assert Fenced(r.states[i].tb.rows) by { hide Invariant.Inv; }
    EarlierIsTerminal(r.states[i].tb.rows, k, g);
    InvGeneration(r.states[i], Key(k.task, g));
    assert Key(k.task, g) in r.states[i].history by { RecordedHistory(r.states[i], Key(k.task, g)); }
    hide Inv;
    RunEvolves(r, i, j);
  }

  lemma RecordedHistory(s: State, k: Key)
    requires k in s.tb.rows && GenerationOk(s, k)
    ensures k in s.history
  {
  }

  /** Requested events are one per generation, with strictly increasing aggregate revision over a task's events. */
  lemma OneEventPerGeneration(r: Run, i: nat)
    requires ValidRun(r) && i < |r.states|
    ensures var tb := r.states[i].tb;
      && (forall k :: k in tb.rows <==> k in tb.events)
      && (forall a, b | 0 <= a < b < |tb.events| :: tb.events[a] != tb.events[b])
      && (forall a, b | 0 <= a < b < |tb.events| && tb.events[a].task == tb.events[b].task ::
          tb.events[a].generation < tb.events[b].generation)
  {
    hide ValidRun, GenerationOk, Invariant.Inv, Fenced, RefreshesOk;
    RunInv(r, i);
    assert EventsOk(r.states[i].tb);
  }

  // ---------------------------------------------------------------- acceptance

  /** At most one submission per generation changes it to accepted, and the accepted result is exactly what the
      profile expects: recomputed from the frozen input, or the one immutable recorded read. */
  lemma AcceptedOnce(r: Run, i: nat, j: nat, k: Key)
    requires ValidRun(r) && i <= j < |r.states| && k in r.states[i].tb.rows
    ensures var s := r.states[i]; var t := s.tb.rows[k];
      && k in s.history && s.history[k].acceptances == (if t.state == Accepted then 1 else 0)
      && (t.state == Accepted ==> RightResult(s.tb, k, t.resultRef, t.resultDigest))
      && (t.state == Accepted ==> k in r.states[j].tb.rows && r.states[j].tb.rows[k] == t)
      && (t.state == Accepted ==> Recorded(r.states[j].tb, k, t) == Recorded(s.tb, k, t))
  {
    hide ValidRun, Inv, EndsOk, AttemptsOk, Distinct;
    RunInv(r, i);
    InvGeneration(r.states[i], k);
    RunEvolves(r, i, j);
    if r.states[i].tb.rows[k].state == Accepted && r.states[i].tb.rows[k].profile == CatalogRefreshProfile {
      assert k in r.states[i].tb.refreshes;
    }
  }

  /** A submission that changes a generation to accepted came from the holder of a valid lease, under a current
      grant. */
  lemma AcceptanceIsAuthorized(r: Run, i: nat, k: Key)
    requires ValidRun(r) && i < |r.steps| && r.steps[i].TSubmit? && r.steps[i].key == k && k in r.states[i].tb.rows
    requires k in r.states[i + 1].tb.rows && r.states[i].tb.rows[k].state != Accepted
        && r.states[i + 1].tb.rows[k].state == Accepted
    ensures var s, s', sub := r.states[i], r.states[i + 1], r.steps[i].sub; var t := s.tb.rows[k];
      && Holding(t, sub.worker, s.p.now) && sub.succeeded && sub.inputDigest == Sha(OfInput(t.input))
      && Authorized(s.p.db, t, s.p.now)
      && s'.tb.rows[k].resultRef == sub.resultRef && s'.tb.rows[k].resultDigest == sub.resultDigest
      && RightResult(s.tb, k, sub.resultRef, sub.resultDigest)
  {
    hide ValidRun, Submit, Current, ExpectedResult, Recorded, Holding, Authorized, RightResult, Inv;
    SubmitOf(r, i);
    var s, sub := r.states[i], r.steps[i].sub;
    SubmitAccepts(s, r.states[i + 1], k, sub, r.steps[i].bounds);
    AuthorizedIsCurrent(s.p.db, s.tb.rows[k], s.p.now);
    RunInv(r, i);
    InvGeneration(s, k);
    RightIsExpected(s.tb, k, sub.resultRef, sub.resultDigest);
  }

  lemma SubmitOf(r: Run, i: nat)
    requires ValidRun(r) && i < |r.steps| && r.steps[i].TSubmit?
    ensures |r.states| == |r.steps| + 1
        && Submit(r.states[i], r.states[i + 1], r.steps[i].key, r.steps[i].sub, r.steps[i].bounds)
  {
    hide Init, Submit;
    assert Next(r.states[i], r.steps[i], r.states[i + 1]);
  }

  /** What the decision checked before it accepted. */
  lemma SubmitAccepts(s: State, s': State, k: Key, sub: Submission, bounds: Bounds)
    requires Submit(s, s', k, sub, bounds) && k in s.tb.rows && k in s'.tb.rows
    requires s.tb.rows[k].state != Accepted && s'.tb.rows[k].state == Accepted
    ensures var t := s.tb.rows[k];
      && Holding(t, sub.worker, s.p.now) && sub.succeeded && sub.inputDigest == Sha(OfInput(t.input))
      && t.authorization.Some? && Current(s.p.db, t.authorization.value, t.tenant, s.p.now)
      && s'.tb.rows[k].resultRef == sub.resultRef && s'.tb.rows[k].resultDigest == sub.resultDigest
      && ExpectedResult(t, Recorded(s.tb, k, t)) == Ok(Some(RecordedResult(sub.resultRef, sub.resultDigest)))
      && (t.profile == CatalogRefreshProfile && k in s.tb.refreshes && s.tb.refreshes[k].drift ==>
            s'.p.db == Sql.AcceptDrift(s.p.db,
                                       Rows.DescriptorKey(s.tb.refreshes[k].server, s.tb.refreshes[k].revision)))
  {
    hide Current, Sql.AcceptDrift, ExpectedResult, Recorded;
  }

  /** A submission to an accepted generation changes nothing, identical or not. */
  lemma RepeatsChangeNothing(s: State, s': State, k: Key, sub: Submission, bounds: Bounds)
    requires Submit(s, s', k, sub, bounds) && k in s.tb.rows && s.tb.rows[k].state == Accepted
    ensures s' == s
    ensures SubmitTx(s.tb, s.p.db, k, sub, s.p.now, bounds).Ok? ==>
              sub.succeeded && s.tb.rows[k].resultRef == sub.resultRef && s.tb.rows[k].resultDigest == sub.resultDigest
  {
    hide Current, Sql.AcceptDrift;
  }

  /** An accepted drift leaves the revision not approved, with no pending or active grant, in the same commit. */
  lemma AcceptedDriftWithdraws(r: Run, i: nat, k: Key)
    requires ValidRun(r) && i < |r.steps| && r.steps[i].TSubmit? && r.steps[i].key == k && k in r.states[i].tb.rows
    requires k in r.states[i + 1].tb.rows && r.states[i].tb.rows[k].state != Accepted
        && r.states[i + 1].tb.rows[k].state == Accepted
    requires r.states[i].tb.rows[k].profile == CatalogRefreshProfile && k in r.states[i].tb.refreshes
        && r.states[i].tb.refreshes[k].drift
    ensures var db := r.states[i + 1].p.db; var v := r.states[i].tb.refreshes[k]; var d :=
      Rows.DescriptorKey(v.server, v.revision);
      && (d in db.descriptors ==> db.descriptors[d].state != Rows.Approved)
      && (forall g | g in db.grants && Rows.KeyOfGrant(db.grants[g]) == d :: !db.grants[g].Live())
  {
    hide ValidRun, Submit, Current, ExpectedResult, Recorded, Holding, Sql.AcceptDrift, Invariant.Inv, Inv;
    SubmitOf(r, i);
    var s, s', v := r.states[i], r.states[i + 1], r.states[i].tb.refreshes[k];
    var d := Rows.DescriptorKey(v.server, v.revision);
    SubmitAccepts(s, s', k, r.steps[i].sub, r.steps[i].bounds);
    RunInv(r, i);
    InvP(s);
    DriftWithdraws(s.p.db, d) by { BindingsOf(s); }
  }

  lemma BindingsOf(s: State)
    requires Invariant.Inv(s.p)
    ensures Invariant.GrantsOk(s.p.db)
  {
  }

  lemma DriftWithdraws(db: Rows.Db, d: Rows.DescriptorKey)
    requires Invariant.GrantsOk(db)
    ensures var db' := Sql.AcceptDrift(db, d);
      && (d in db'.descriptors ==> db'.descriptors[d].state != Rows.Approved)
      && (forall g | g in db'.grants && Rows.KeyOfGrant(db'.grants[g]) == d :: !db'.grants[g].Live())
  {
    if d in db.descriptors && db.descriptors[d].state == Rows.Approved {
      Preservation.DisableOk(db, d);
    } else {
      assert forall g | g in db.grants :: Invariant.GrantOk(db, db.grants[g]);
    }
  }

  // ---------------------------------------------------------------- transactions in sequence

  /** After a claim, until its lease ends, its holder's heartbeat renews it by the same length and every other claim
      is refused; from then on the heartbeat is refused, and a new worker takes over a reconstructible generation with
      attempts left, but never one with an external effect. */
  lemma ClaimIsALease(tb: TaskTables.Tables, k: Key, worker: Id, lease: Time, now: Time, bounds: Bounds, later: Time,
                      other: Id)
    requires ClaimTx(tb, k, worker, lease, now, bounds).Ok? && now <= later && other != worker
    requires forall o | o in AttemptsOf(tb, k) :: AttemptsOf(tb, k)[o].worker != other
    ensures var tb' := ClaimTx(tb, k, worker, lease, now, bounds).value; var beat := HeartbeatTx(tb', k, worker, later);
      && (later < now + lease ==> beat.Ok? && beat.value.rows[k].leaseUntil == later + lease)
      && (later < now + lease ==> ClaimTx(tb', k, other, lease, later, bounds) == Err(AlreadyClaimed))
      && (later >= now + lease ==> beat == Err(StaleExecution))
      && (later >= now + lease && tb.rows[k].effects == External ==>
            ClaimTx(tb', k, other, lease, later, bounds) == Err(UncertainEffect))
      && (later >= now + lease && tb.rows[k].effects == Reconstructible ==>
            (ClaimTx(tb', k, other, lease, later, bounds).Ok? <==> tb'.rows[k].attemptCount < tb'.rows[k].maxAttempts))
      && ClaimTx(tb', k, worker, lease, later, bounds) == Err(DuplicateClaim)
  {
    var t, mine := tb.rows[k], ClaimTx(tb, k, worker, lease, now, bounds).value.attempts[k];
    var d := DecideClaim(t, AttemptsOf(tb, k), worker, lease, now, bounds).value;
    assert mine[d.attempt.ordinal] == d.attempt && d.attempt.worker == worker;
    assert forall o | o in mine :: mine[o].worker != other;
  }

  /** A failed attempt with attempts left is claimed by a new worker from the end of the retry delay on, and not before;
      without attempts left it is dead. */
  lemma RetryWaits(tb: TaskTables.Tables, db: Rows.Db, k: Key, sub: Submission, now: Time, bounds: Bounds,
                   later: Time, other: Id, lease: Time)
    requires var r := SubmitTx(tb, db, k, sub, now, bounds); r.Ok? && r.value.decision.outcome == AttemptFailed
    requires 0 < lease <= bounds.maxLease && forall o | o in AttemptsOf(tb, k) :: AttemptsOf(tb, k)[o].worker != other
    ensures var tb', t := SubmitTx(tb, db, k, sub, now, bounds).value.tb, tb.rows[k];
      && tb'.rows[k].state == (if t.attemptCount < t.maxAttempts then RetryScheduled else Dead)
      && (ClaimTx(tb', k, other, lease, later, bounds).Ok?
          <==> t.attemptCount < t.maxAttempts && later >= now + bounds.retryDelay)
  {
    hide Current, Recorded, ExpectedResult, Sql.AcceptDrift;
    var tb' := SubmitTx(tb, db, k, sub, now, bounds).value.tb;
    assert forall o | o in AttemptsOf(tb', k) :: AttemptsOf(tb', k)[o].worker != other;
  }
}
