/** The background tables and the transactions of their owner as functions: one decision
    under the row lock of the generation, the attempt record and the guarded update. */
module TaskTables {
  import opened Basics
  import opened TaskRules
  import Rows
  import Sql

  datatype Key = Key(task: Id, generation: nat)

  /** background_requests, task_attempts (by ordinal), catalog_refreshes, and the requested events published. */
  datatype Tables = Tables(
    rows: map<Key, Task>, attempts: map<Key, map<nat, Attempt>>, refreshes: map<Key, Verdict>, events: seq<Key>)

  function AttemptsOf(tb: Tables, k: Key): map<nat, Attempt> {
    if k in tb.attempts then tb.attempts[k] else map[]
  }

  /** currentAttempt: the attempt whose ordinal is the attempt count. */
  function CurrentAttempt(tb: Tables, k: Key, t: Task): Option<Attempt> {
    if t.attemptCount in AttemptsOf(tb, k) then Some(AttemptsOf(tb, k)[t.attemptCount]) else None
  }

  /** SetAttemptOutcome. */
  function WithOutcome(attempts: map<nat, Attempt>, ordinal: nat, outcome: AttemptOutcome): map<nat, Attempt> {
    if outcome != NoOutcome && ordinal > 0
        && ordinal in attempts then attempts[ordinal := attempts[ordinal].(outcome := outcome)] else attempts
  }

  /** apply: the decided row and the current attempt's outcome. */
  function Applied(tb: Tables, k: Key, t: Task, outcome: AttemptOutcome): Tables {
    tb.(rows := tb.rows[k := Stored(t)],
        attempts := tb.attempts[k := WithOutcome(AttemptsOf(tb, k), t.attemptCount, outcome)])
  }

  // ---------------------------------------------------------------- Request

  datatype RequestInput = RequestInput(
    task: Id, tenant: Id, kind: Kind, profile: Profile, input: Input, effects: Effects, dispatch: Option<Id>,
    authorization: Option<Id>)

  /** GetLatestRequestForUpdate: the greatest generation, 0 when there is none. */
  predicate IsLatest(rows: map<Key, Task>, task: Id, generation: nat) {
    && (generation == 0 || Key(task, generation) in rows)
    && forall k | k in rows && k.task == task :: 1 <= k.generation <= generation
  }

  /** The authorization a request names is current: an executable grant of its tenant. */
  predicate Current(db: Rows.Db, grant: Id, tenant: Id, now: Time) {
    grant in db.grants && db.grants[grant].tenant == tenant && db.grants[grant].Executable(now)
  }

  /** Request: the latest generation again when its input is the same, otherwise the next one, fencing it. */
  function RequestTx(tb: Tables, db: Rows.Db, latest: nat, input: RequestInput, now: Time,
                     bounds: Bounds): Result<Tables, Error>
    requires IsLatest(tb.rows, input.task, latest)
  {
    match NewRequest(input.task, input.tenant, input.kind, input.profile, input.input, input.effects, input.dispatch,
                     input.authorization, bounds)
    case Err(e) => Err(e)
    case Ok(candidate) =>
      if latest == 0 then
        Inserted(tb, db, candidate, now)
      else
        var prev := tb.rows[Key(input.task, latest)];
        if prev.tenant != input.tenant then Err(Forbidden)
        else if prev.input == candidate.input then Ok(tb)
        else
          var (fenced, changed) := Supersede(prev);
          var tb1 := if changed then Applied(tb, Key(input.task, latest), fenced,
                                             if prev.state == Leased then AttemptStale else NoOutcome) else tb;
          Inserted(tb1, db, candidate.(generation := latest + 1), now)
  }

  /** InsertRequest with its background.requested event, under a current authorization. */
  function Inserted(tb: Tables, db: Rows.Db, t: Task, now: Time): Result<Tables, Error> {
    if t.authorization.None? then Err(Invalid)
    else if !Current(db, t.authorization.value, t.tenant, now) then Err(Forbidden)
    else
      var k := Key(t.task, t.generation);
      Ok(tb.(rows := tb.rows[k := t], attempts := tb.attempts[k := map[]], events := tb.events + [k]))
  }

  // ---------------------------------------------------------------- Claim, Heartbeat, Submit, Cancel, Sweep

  function ClaimTx(tb: Tables, k: Key, worker: Id, lease: Time, now: Time, bounds: Bounds): Result<Tables, Error> {
    if k !in tb.rows then Err(NotFound)
    else
      var t := tb.rows[k];
      match DecideClaim(t, AttemptsOf(tb, k), worker, lease, now, bounds)
      case Err(e) => Err(e)
      case Ok(d) =>
        var before := if d.expiredPrevious then WithOutcome(AttemptsOf(tb, k), t.attemptCount, AttemptExpired)
          else AttemptsOf(tb, k);
        Ok(tb.(rows := tb.rows[k := Stored(d.task)],
               attempts := tb.attempts[k := before[d.attempt.ordinal := d.attempt]]))
  }

  function HeartbeatTx(tb: Tables, k: Key, worker: Id, now: Time): Result<Tables, Error> {
    if k !in tb.rows then Err(NotFound)
    else
      match DecideHeartbeat(tb.rows[k], CurrentAttempt(tb, k, tb.rows[k]), worker, now)
      case Err(e) => Err(e)
      case Ok(t) => Ok(Applied(tb, k, t, NoOutcome))
  }

  /** Refresh.Recorded: the owner's own record, for the profile bound to it. */
  function Recorded(tb: Tables, k: Key, t: Task): Option<RecordedResult> {
    if t.profile == CatalogRefreshProfile && k in tb.refreshes then
      Some(RecordedResult(RefreshRef(t.task, t.generation), Sha(OfRefresh(t.task, t.generation, tb.refreshes[k]))))
    else None
  }

  datatype SubmitEffect = SubmitEffect(tb: Tables, db: Rows.Db, decision: SubmitDecision)

  /** Submit: the decision, and for an accepted refresh that found drift the withdrawal of the revision in the same
      commit. */
  function SubmitTx(tb: Tables, db: Rows.Db, k: Key, sub: Submission, now: Time,
                    bounds: Bounds): Result<SubmitEffect, Error> {
    if k !in tb.rows then Err(NotFound)
    else
      var t := tb.rows[k];
      if t.authorization.None? then Err(Invalid)
      else
        match DecideSubmit(t, CurrentAttempt(tb, k, t), sub, Current(db, t.authorization.value, t.tenant, now), now,
                           bounds, Recorded(tb, k, t))
        case Err(e) => Err(e)
        case Ok(d) =>
          if !d.changed then Ok(SubmitEffect(tb, db, d))
          else
            var tb1 := Applied(tb, k, d.task, d.outcome);
            if d.accepted && t.profile == CatalogRefreshProfile && k in tb.refreshes && tb.refreshes[k].drift then
              Ok(SubmitEffect(tb1, Sql.AcceptDrift(db,
                                                   Rows.DescriptorKey(tb.refreshes[k].server,
                                                                      tb.refreshes[k].revision)), d))
            else
              Ok(SubmitEffect(tb1, db, d))
  }

  function CancelTx(tb: Tables, latest: nat, task: Id): Result<Tables, Error>
    requires IsLatest(tb.rows, task, latest)
  {
    if latest == 0 then Err(NotFound)
    else
      var k := Key(task, latest);
      var d := DecideCancel(tb.rows[k]);
      Ok(if d.changed then Applied(tb, k, d.task, d.outcome) else tb)
  }

  /** The transaction of one swept lease; Control's answer was obtained before it. */
  function SweepTx(tb: Tables, k: Key, outcome: DispatchOutcome, now: Time, bounds: Bounds): Result<Tables, Error> {
    if k !in tb.rows then Err(NotFound)
    else
      var d := DecideExpire(tb.rows[k], outcome, now, bounds);
      Ok(if d.changed then Applied(tb, k, d.task, d.outcome) else tb)
  }

  // ---------------------------------------------------------------- Advance, retention

  /** Refresh.Advance answers only the current claimant of a refresh with a valid lease and the frozen input. */
  predicate MayAdvance(tb: Tables, k: Key, worker: Id, digest: Digest, now: Time) {
    && k in tb.rows
    && var t := tb.rows[k];
    && t.kind == CatalogRefreshKind && t.profile == CatalogRefreshProfile
    && t.state == Leased && t.worker == Some(worker) && t.leaseUntil > now
    && digest == Sha(OfInput(t.input))
  }

  /** InsertRefresh: the first record of a generation wins. */
  function RecordTx(tb: Tables, k: Key, v: Verdict): Tables {
    if k in tb.refreshes then tb else tb.(refreshes := tb.refreshes[k := v])
  }

  /** Retention removes attempts of terminal requests only. */
  function RetainTx(tb: Tables, k: Key, ordinals: set<nat>): Tables {
    if k in tb.rows && k in tb.attempts && tb.rows[k].state.Terminal() then
      tb.(attempts := tb.attempts[k := tb.attempts[k] - ordinals])
    else tb
  }
}
