/** Every step of the background lane keeps its invariant. */
module TaskPreservation {
  import opened Basics
  import opened TaskRules
  import opened TaskTables
  import opened TaskSystem
  import opened TaskInvariant
  import Rows
  import Sql
  import Protocol
  import Invariant
  import Preservation

  lemma Unchanged(s: State)
    requires Inv(s)
    ensures Kept(s, s)
  {
    hide Invariant.Inv, LaneOk;
  }

  // ---------------------------------------------------------------- the claim

  /** A claimant that is new is no earlier claimant: the attempts of an open generation are complete. */
  lemma NewClaimant(t: Task, h: History, attempts: map<nat, Attempt>, worker: Id)
    requires AttemptsOk(t, h, attempts) && !t.state.Terminal()
    requires !exists o :: o in attempts && attempts[o].worker == worker
    ensures worker !in h.claimants
  {
    forall i | 0 <= i < |h.claimants| ensures h.claimants[i] != worker {
      assert i + 1 in attempts;
    }
  }

  /** The history of a claim. */
  function ClaimedHistory(h: History, worker: Id): History {
    var ends := if |h.ends| > 0 && h.ends[|h.ends| - 1] == Running then h.ends[|h.ends| - 1 := TakenOver] else h.ends;
    h.(claimants := h.claimants + [worker], ends := ends + [Running], changes := h.changes + 1)
  }

  function ClaimedAttempts(t: Task, d: ClaimDecision, attempts: map<nat, Attempt>): map<nat, Attempt> {
    (if d.expiredPrevious then WithOutcome(attempts, t.attemptCount, AttemptExpired)
     else attempts)[d.attempt.ordinal := d.attempt]
  }

  lemma ClaimOk(t: Task, h: History, attempts: map<nat, Attempt>, worker: Id, lease: Time, now: Time, bounds: Bounds)
    requires AttemptsOk(t, h, attempts) && EndsOk(t, h) && CountsOk(t, h) && Distinct(h.claimants)
    requires DecideClaim(t, attempts, worker, lease, now, bounds).Ok?
    ensures
      var d := DecideClaim(t, attempts, worker, lease, now, bounds).value;
      var t' := Stored(d.task);
      var h' := ClaimedHistory(h, worker);
      && Distinct(h'.claimants) && AttemptsOk(t', h', ClaimedAttempts(t, d, attempts)) && EndsOk(t', h')
          && CountsOk(t', h')
      && t'.state == Leased && LateralOk(t, h, t', h', now, now)
  {
    NewClaimant(t, h, attempts, worker);
    ClaimAttempts(t, h, attempts, worker, lease, now, bounds);
    hide AttemptsOk, ClaimedAttempts;
  }

  lemma ClaimAttempts(t: Task, h: History, attempts: map<nat, Attempt>, worker: Id, lease: Time, now: Time,
                      bounds: Bounds)
    requires AttemptsOk(t, h, attempts) && EndsOk(t, h) && DecideClaim(t, attempts, worker, lease, now, bounds).Ok?
    ensures var d := DecideClaim(t, attempts, worker, lease, now, bounds).value;
      AttemptsOk(Stored(d.task), ClaimedHistory(h, worker), ClaimedAttempts(t, d, attempts))
  {
  }

  // ---------------------------------------------------------------- one generation

  /** The parts of a generation that a decision settles. */
  ghost predicate Parts(t: Task, h: History, attempts: map<nat, Attempt>) {
    Distinct(h.claimants) && AttemptsOk(t, h, attempts) && EndsOk(t, h) && CountsOk(t, h)
  }

  lemma PartsOf(s: State, k: Key)
    requires Inv(s) && k in s.tb.rows
    ensures k in s.history && k in s.tb.attempts && Parts(s.tb.rows[k], s.history[k], s.tb.attempts[k])
    ensures ResultOk(s.tb, k, s.tb.rows[k])
  {
    hide Invariant.Inv, Distinct, AttemptsOk, EndsOk, CountsOk;
  }

  lemma LaneOf(s: State, k: Key)
    requires Inv(s) && k in s.tb.rows
    ensures GenerationOk(s, k) && LaneOk(s)
  {
    hide Invariant.Inv, Distinct, AttemptsOk, EndsOk, CountsOk;
  }

  /** One generation moved to `t`, `h` and `attempts`. */
  lemma Decided(s: State, s': State, k: Key, t: Task, h: History, attempts: map<nat, Attempt>)
    requires Inv(s) && k in s.tb.rows && Invariant.Inv(s'.p) && s'.p.now == s.p.now
    requires s' == s.(p := s'.p, tb := s.tb.(rows := s.tb.rows[k := t], attempts := s.tb.attempts[k := attempts]),
                      history := s.history[k := h])
    requires Parts(t, h, attempts) && ResultOk(s.tb, k, t)
    requires k in s.history && LateralOk(s.tb.rows[k], s.history[k], t, h, s.p.now, s.p.now)
    ensures Kept(s, s')
  {
    hide Invariant.Inv, Distinct, AttemptsOk, EndsOk, CountsOk, LaneOk, Inv;
    LaneOf(s, k);
    assert LaterTask(s.tb.rows[k], t);
    assert ResultOk(s'.tb, k, t);
    OneGenerationKept(s, s', k);
  }

  lemma ClaimKept(s: State, s': State, k: Key, worker: Id, lease: Time, bounds: Bounds)
    requires Inv(s) && Claim(s, s', k, worker, lease, bounds)
    ensures Kept(s, s')
  {
    hide Inv, Invariant.Inv, DecideClaim, Parts, LateralOk, Kept, ResultOk;
    if ClaimTx(s.tb, k, worker, lease, s.p.now, bounds).Err? {
      Unchanged(s);
    } else {
      PartsOf(s, k);
      var t, h := s.tb.rows[k], s.history[k];
      ClaimParts(t, h, s.tb.attempts[k], worker, lease, s.p.now, bounds);
      var d := DecideClaim(t, s.tb.attempts[k], worker, lease, s.p.now, bounds).value;
      InvP(s);
      assert ResultOk(s.tb, k, Stored(d.task)) by { OpenResult(s.tb, k, Stored(d.task)); }
      Decided(s, s', k, Stored(d.task), ClaimedHistory(h, worker), ClaimedAttempts(t, d, s.tb.attempts[k]));
    }
  }

  lemma OpenResult(tb: Tables, k: Key, t: Task)
    requires t.state != Accepted
    ensures ResultOk(tb, k, t)
  {
  }

  lemma InvP(s: State)
    requires Inv(s)
    ensures Invariant.Inv(s.p)
  {
    hide Invariant.Inv;
  }

  lemma ClaimParts(t: Task, h: History, attempts: map<nat, Attempt>, worker: Id, lease: Time, now: Time, bounds: Bounds)
    requires Parts(t, h, attempts) && DecideClaim(t, attempts, worker, lease, now, bounds).Ok?
    ensures
      var d := DecideClaim(t, attempts, worker, lease, now, bounds).value;
      var t' := Stored(d.task);
      var h' := ClaimedHistory(h, worker);
      Parts(t', h', ClaimedAttempts(t, d, attempts)) && t'.state == Leased && LateralOk(t, h, t', h', now, now)
  {
    ClaimOk(t, h, attempts, worker, lease, now, bounds);
  }

  // ---------------------------------------------------------------- heartbeat

  lemma HeartbeatParts(t: Task, h: History, attempts: map<nat, Attempt>, current: Option<Attempt>, worker: Id,
                       now: Time)
    requires Parts(t, h, attempts) && DecideHeartbeat(t, current, worker, now).Ok?
    ensures var t' := Stored(DecideHeartbeat(t, current, worker, now).value); var h' := h.(beats := h.beats + 1);
      Parts(t', h', attempts) && t'.state == Leased && LateralOk(t, h, t', h', now, now)
  {
  }

  lemma HeartbeatKept(s: State, s': State, k: Key, worker: Id)
    requires Inv(s) && Heartbeat(s, s', k, worker)
    ensures Kept(s, s')
  {
    hide Inv, Invariant.Inv, DecideHeartbeat, Parts, LateralOk, Kept, ResultOk;
    if HeartbeatTx(s.tb, k, worker, s.p.now).Err? {
      Unchanged(s);
    } else {
      PartsOf(s, k);
      var t, h := s.tb.rows[k], s.history[k];
      var current := CurrentAttempt(s.tb, k, t);
      HeartbeatParts(t, h, s.tb.attempts[k], current, worker, s.p.now);
      var t' := Stored(DecideHeartbeat(t, current, worker, s.p.now).value);
      InvP(s);
      assert ResultOk(s.tb, k, t') by { OpenResult(s.tb, k, t'); }
      Decided(s, s', k, t', h.(beats := h.beats + 1), s.tb.attempts[k]);
    }
  }

  // ---------------------------------------------------------------- leaving a lease, or a state without one

  /** A decided row that is no longer open, or released for another attempt. */
  predicate Leaves(t: Task, t': Task, e: End) {
    && !t.state.Terminal()
    && t' == t.(state := t'.state, worker := t'.worker, leaseUntil := t'.leaseUntil, retryAt := t'.retryAt,
                resultRef := t'.resultRef,
                resultDigest := t'.resultDigest, failure := t'.failure, revision := t.revision + 1)
    && e != Running
    && (Uncertain(t.effects, e) ==> t'.state == Dead)
    && (t'.state.Terminal() || (t.state == Leased && t'.state == RetryScheduled && t.attemptCount < t.maxAttempts
                                && Released(t.effects, e)))
  }

  function LeftHistory(h: History, e: End, accepted: bool): History {
    var c := Closed(h, e);
    if accepted then c.(acceptances := c.acceptances + 1) else c
  }

  lemma LeaveParts(t: Task, h: History, attempts: map<nat, Attempt>, t': Task, e: End, outcome: AttemptOutcome,
                   now: Time)
    requires Parts(t, h, attempts) && Leaves(t, t', e)
    ensures var h' := LeftHistory(h, e, t'.state == Accepted);
      Parts(t', h', WithOutcome(attempts, t.attemptCount, outcome)) && LateralOk(t, h, t', h', now, now)
  {
    var h' := LeftHistory(h, e, t'.state == Accepted);
    LeaveEnds(t, h, t', e);
    LeaveAttempts(t, h, attempts, t', e, outcome);
    hide EndsOk, AttemptsOk, WithOutcome;
  }

  lemma LeaveAttempts(t: Task, h: History, attempts: map<nat, Attempt>, t': Task, e: End, outcome: AttemptOutcome)
    requires AttemptsOk(t, h, attempts) && Leaves(t, t', e)
    ensures AttemptsOk(t', LeftHistory(h, e, t'.state == Accepted), WithOutcome(attempts, t.attemptCount, outcome))
  {
  }

  lemma LeaveEnds(t: Task, h: History, t': Task, e: End)
    requires EndsOk(t, h) && Leaves(t, t', e)
    ensures EndsOk(t', LeftHistory(h, e, t'.state == Accepted))
  {
  }

  /** The row left, written by apply. */
  lemma LeaveKept(s: State, s': State, k: Key, t': Task, e: End, outcome: AttemptOutcome)
    requires Inv(s) && k in s.tb.rows && k in s.history && Leaves(s.tb.rows[k], t', e) && t' == Stored(t')
    requires Invariant.Inv(s'.p) && s'.p.now == s.p.now
    requires s' == Noted(s, k, LeftHistory(s.history[k], e, t'.state == Accepted)).(p := s'.p,
        tb := Applied(s.tb, k, t', outcome))
    requires ResultOk(s.tb, k, t')
    ensures Kept(s, s')
  {
    hide Inv, Invariant.Inv, Parts, LateralOk, Kept, ResultOk;
    PartsOf(s, k);
    LeaveParts(s.tb.rows[k], s.history[k], s.tb.attempts[k], t', e, outcome, s.p.now);
    Decided(s, s', k, t', LeftHistory(s.history[k], e, t'.state == Accepted),
            WithOutcome(s.tb.attempts[k], t'.attemptCount, outcome));
  }

  lemma CancelKept(s: State, s': State, latest: nat, task: Id)
    requires Inv(s) && Cancel(s, s', latest, task)
    ensures Kept(s, s')
  {
    hide Inv, Invariant.Inv, Kept, ResultOk;
    var k := Key(task, latest);
    if s' == s {
      Unchanged(s);
    } else {
      PartsOf(s, k);
      InvP(s);
      var d := DecideCancel(s.tb.rows[k]);
      OpenResult(s.tb, k, Stored(d.task));
      LeaveKept(s, s', k, Stored(d.task), Cut, d.outcome);
    }
  }

  lemma ExpireLeaves(t: Task, outcome: DispatchOutcome, now: Time, bounds: Bounds)
    requires DecideExpire(t, outcome, now, bounds).changed
    ensures Leaves(t, Stored(DecideExpire(t, outcome, now, bounds).task), ExpiredAfter(outcome))
    ensures DecideExpire(t, outcome, now, bounds).task.state != Accepted
  {
  }

  lemma SweepKept(s: State, s': State, k: Key, outcome: DispatchOutcome, bounds: Bounds)
    requires Inv(s) && Sweep(s, s', k, outcome, bounds)
    ensures Kept(s, s')
  {
    hide Inv, Invariant.Inv, Kept, ResultOk, Leaves, DecideExpire;
    if s' == s {
      Unchanged(s);
    } else {
      PartsOf(s, k);
      InvP(s);
      var d := DecideExpire(s.tb.rows[k], outcome, s.p.now, bounds);
      ExpireLeaves(s.tb.rows[k], outcome, s.p.now, bounds);
      OpenResult(s.tb, k, Stored(d.task));
      LeaveKept(s, s', k, Stored(d.task), ExpiredAfter(outcome), d.outcome);
    }
  }

  /** How a submission ends an attempt. */
  function SubmitEnd(d: SubmitDecision): End {
    if d.accepted then Completed else if d.outcome == AttemptFailed then FailedByClaimant else Cut
  }

  /** A submission that changes the row comes from the holder of a valid lease; it is accepted only under a current
      authorization and with exactly the expected result. */
  lemma SubmitLeaves(t: Task, current: Option<Attempt>, sub: Submission, authorized: bool, now: Time, bounds: Bounds,
                     recorded: Option<RecordedResult>)
    requires DecideSubmit(t, current, sub, authorized, now, bounds, recorded).Ok?
    requires DecideSubmit(t, current, sub, authorized, now, bounds, recorded).value.changed
    ensures var d := DecideSubmit(t, current, sub, authorized, now, bounds, recorded).value;
      && Leaves(t, Stored(d.task), SubmitEnd(d)) && Holding(t, sub.worker, now)
      && (d.accepted <==> d.task.state == Accepted)
      && (d.accepted ==> authorized)
      && (d.accepted ==>
            ExpectedResult(t, recorded) == Ok(Some(RecordedResult(d.task.resultRef, d.task.resultDigest))))
      && (d.accepted ==> d.task.resultRef == sub.resultRef && d.task.resultDigest == sub.resultDigest)
  {
  }

  /** An accepted drift is a catalog step of the protocol. */
  lemma DriftKept(p: Protocol.State, key: Rows.DescriptorKey)
    requires Invariant.Inv(p)
    ensures Invariant.Inv(p.(db := Sql.AcceptDrift(p.db, key)))
  {
    var p' := p.(db := Sql.AcceptDrift(p.db, key));
    assert Protocol.Manage(p, p', Protocol.AcceptDrift(key)) by { hide Invariant.Inv; }
    hide Invariant.Inv, Invariant.Evolves, Protocol.Manage;
    Preservation.ManageKept(p, p', Protocol.AcceptDrift(key));
  }

  lemma SubmitKept(s: State, s': State, k: Key, sub: Submission, bounds: Bounds)
    requires Inv(s) && Submit(s, s', k, sub, bounds)
    ensures Kept(s, s')
  {
    hide Inv, Invariant.Inv, Kept, ResultOk, Leaves, DecideSubmit, Sql.AcceptDrift, Current;
    if s' == s {
      Unchanged(s);
    } else {
      PartsOf(s, k);
      InvP(s);
      var t := s.tb.rows[k];
      var authorized := Current(s.p.db, t.authorization.value, t.tenant, s.p.now);
      var current, recorded := CurrentAttempt(s.tb, k, t), Recorded(s.tb, k, t);
      SubmitLeaves(t, current, sub, authorized, s.p.now, bounds, recorded);
      var d := DecideSubmit(t, current, sub, authorized, s.p.now, bounds, recorded).value;
      if s'.p != s.p {
        DriftKept(s.p, Rows.DescriptorKey(s.tb.refreshes[k].server, s.tb.refreshes[k].revision));
      }
      SubmitResult(s.tb, k, t, d);
      SubmitShape(s, s', k, d);
      LeaveKept(s, s', k, Stored(d.task), SubmitEnd(d), d.outcome);
    }
  }

  lemma SubmitShape(s: State, s': State, k: Key, d: SubmitDecision)
    requires k in s.history
    requires
      var h := Closed(s.history[k], SubmitEnd(d));
      var h' := if d.accepted then h.(acceptances := h.acceptances + 1) else h;
      s' == Noted(s, k, h').(tb := Applied(s.tb, k, d.task, d.outcome), p := s'.p)
    requires d.accepted <==> d.task.state == Accepted
    ensures
      var h := LeftHistory(s.history[k], SubmitEnd(d), Stored(d.task).state == Accepted);
      s' == Noted(s, k, h).(p := s'.p, tb := Applied(s.tb, k, Stored(d.task), d.outcome))
  {
  }

  lemma SubmitResult(tb: Tables, k: Key, t: Task, d: SubmitDecision)
    requires d.task.task == t.task && d.task.generation == t.generation && d.task.profile == t.profile
        && d.task.input == t.input
    requires d.task.state == Accepted ==>
          ExpectedResult(t, Recorded(tb, k, t)) == Ok(Some(RecordedResult(d.task.resultRef, d.task.resultDigest)))
    ensures ResultOk(tb, k, Stored(d.task))
  {
  }

  // ---------------------------------------------------------------- the other steps

  lemma EnvironmentKept(s: State, s': State, step: Protocol.Step)
    requires Inv(s) && Environment(s, s', step)
    ensures Kept(s, s')
  {
    assert s.p.now <= s'.p.now && Invariant.Inv(s'.p) by {
      hide Invariant.Inv, Protocol.Next, LaneOk;
      Preservation.StepKept(s.p, step, s'.p);
    }
    hide Invariant.Inv, Protocol.Next, Fenced, EventsOk, RefreshesOk, GenerationOk;
    LaneFrame(s, s');
    assert Evolves(s, s');
  }

  /** The lane does not depend on the protocol's state. */
  lemma LaneFrame(s: State, s': State)
    requires LaneOk(s) && s' == s.(p := s'.p)
    ensures LaneOk(s')
  {
    hide Distinct, AttemptsOk, EndsOk, CountsOk, ResultOk, EventsOk, Fenced;
    forall k | k in s'.tb.rows ensures GenerationOk(s', k) { assert GenerationOk(s, k); }
  }

  lemma StartReadKept(s: State, s': State, k: Key, worker: Id, digest: Digest)
    requires Inv(s) && StartRead(s, s', k, worker, digest)
    ensures Kept(s, s')
  {
    hide Invariant.Inv, Distinct, AttemptsOk, EndsOk, CountsOk, ResultOk, EventsOk, Fenced;
    forall k | k in s'.tb.rows ensures GenerationOk(s', k) { assert GenerationOk(s, k); }
  }

  lemma AskKept(s: State, s': State, k: Key, outcome: DispatchOutcome)
    requires Inv(s) && Ask(s, s', k, outcome)
    ensures Kept(s, s')
  {
    hide Invariant.Inv, Distinct, AttemptsOk, EndsOk, CountsOk, ResultOk, EventsOk, Fenced;
    forall k | k in s'.tb.rows ensures GenerationOk(s', k) { assert GenerationOk(s, k); }
  }

  lemma RecordKept(s: State, s': State, r: Reader, live: Option<Id>)
    requires Inv(s) && Record(s, s', r, live)
    ensures Kept(s, s')
  {
    hide Invariant.Inv, Distinct, AttemptsOk, EndsOk, CountsOk, Fenced, EventsOk, RefreshesOk, Evolves, ResultOk;
    forall k | k in s'.tb.rows ensures GenerationOk(s', k) {
      assert GenerationOk(s, k);
      assert ResultOk(s'.tb, k, s'.tb.rows[k]) by { RecordedStays(s.tb, s'.tb, k); }
    }
    EventsFrame(s.tb, s'.tb);
    assert RefreshesOk(s') by { RecordOthers(s, s', r, live); }
    assert Evolves(s, s') by { RowsFrame(s, s'); }
  }

  lemma RecordOthers(s: State, s': State, r: Reader, live: Option<Id>)
    requires RefreshesOk(s) && Record(s, s', r, live)
    ensures RefreshesOk(s')
  {
  }

  lemma RowsFrame(s: State, s': State)
    requires s'.tb.rows == s.tb.rows && s'.history == s.history && s'.p == s.p
    requires forall k | k in s.tb.refreshes :: k in s'.tb.refreshes && s'.tb.refreshes[k] == s.tb.refreshes[k]
    ensures Evolves(s, s')
  {
  }

  /** A result accepted against a record is not touched by a later record. */
  lemma RecordedStays(tb: Tables, tb': Tables, k: Key)
    requires k in tb.rows && tb'.rows == tb.rows && ResultOk(tb, k, tb.rows[k])
    requires k in tb.refreshes ==> k in tb'.refreshes && tb'.refreshes[k] == tb.refreshes[k]
    ensures ResultOk(tb', k, tb.rows[k])
  {
  }

  lemma RetainKept(s: State, s': State, k: Key, ordinals: set<nat>)
    requires Inv(s) && Retain(s, s', k, ordinals)
    ensures Kept(s, s')
  {
    hide Invariant.Inv, Distinct, EndsOk, CountsOk, Fenced, EventsOk;
    forall j | j in s'.tb.rows ensures GenerationOk(s', j) { assert GenerationOk(s, j); }
    assert EventsOk(s'.tb) by { assert EventsOk(s.tb); EventsFrame(s.tb, s'.tb); }
  }

  lemma EventsFrame(tb: Tables, tb': Tables)
    requires EventsOk(tb) && tb'.rows == tb.rows && tb'.events == tb.events
    ensures EventsOk(tb')
  {
  }

  // ---------------------------------------------------------------- a new generation

  lemma {:induction false} EvolvesTransitive(a: State, b: State, c: State)
    requires Evolves(a, b) && Evolves(b, c)
    ensures Evolves(a, c)
  {
    forall k | k in a.tb.rows && k in a.history
      ensures k in c.tb.rows && k in c.history
          && LateralOk(a.tb.rows[k], a.history[k], c.tb.rows[k], c.history[k], a.p.now, c.p.now)
    {
      assert LateralOk(a.tb.rows[k], a.history[k], b.tb.rows[k], b.history[k], a.p.now, b.p.now);
      assert LateralOk(b.tb.rows[k], b.history[k], c.tb.rows[k], c.history[k], b.p.now, c.p.now);
      forall w | w in a.history[k].claimants && !Holding(a.tb.rows[k], w, a.p.now)
        ensures !Holding(c.tb.rows[k], w, c.p.now) {
        assert w in b.history[k].claimants;
      }
    }
  }

  /** The state with a fresh generation. */
  function WithGeneration(s: State, t: Task): State {
    var k := Key(t.task, t.generation);
    Noted(s, k, History([], [], 0, 0, 0)).(
      tb := s.tb.(rows := s.tb.rows[k := t], attempts := s.tb.attempts[k := map[]], events := s.tb.events + [k]))
  }

  predicate FreshTask(t: Task) {
    t.state == Pending && t.attemptCount == 0 && t.revision == 1 && InputFits(t.profile, t.input) && t.generation >= 1
  }

  lemma InsertedEvents(s: State, t: Task, latest: nat)
    requires EventsOk(s.tb) && IsLatest(s.tb.rows, t.task, latest) && t.generation == latest + 1
    ensures EventsOk(WithGeneration(s, t).tb)
  {
    var k := Key(t.task, t.generation);
    var tb' := WithGeneration(s, t).tb;
    forall j | j in tb'.rows ensures j in tb'.events {
      if j == k { assert tb'.events[|s.tb.events|] == k; } else { assert j in s.tb.events; }
    }
  }

  lemma NewGeneration(s: State, t: Task)
    requires FreshTask(t)
    ensures GenerationOk(WithGeneration(s, t), Key(t.task, t.generation))
  {
  }

  lemma InsertKept(s: State, s': State, t: Task, latest: nat)
    requires Inv(s) && FreshTask(t) && IsLatest(s.tb.rows, t.task, latest) && t.generation == latest + 1
    requires latest > 0 ==> s.tb.rows[Key(t.task, latest)].state.Terminal()
    requires s' == WithGeneration(s, t)
    ensures Kept(s, s')
  {
    hide Invariant.Inv, EventsOk, FreshTask, GenerationOk, Fenced, RefreshesOk, Evolves;
    var k := Key(t.task, t.generation);
    NewGeneration(s, t);
    InsertedEvents(s, t, latest);
    forall j | j in s'.tb.rows ensures GenerationOk(s', j) {
      if j != k {
        InsertFrame(s, t, j);
        GenerationStable(s, s', j);
      }
    }
    InsertOthers(s, t, latest);
    InsertEvolves(s, t, latest);
  }

  lemma InsertFenced(rows: map<Key, Task>, t: Task, latest: nat)
    requires Fenced(rows) && IsLatest(rows, t.task, latest) && t.generation == latest + 1
    requires latest > 0 ==> rows[Key(t.task, latest)].state.Terminal()
    ensures Fenced(rows[Key(t.task, t.generation) := t])
  {
    var k, rows' := Key(t.task, t.generation), rows[Key(t.task, t.generation) := t];
    forall j | j in rows' && j.generation > 1
      ensures Key(j.task, j.generation - 1) in rows' && rows'[Key(j.task, j.generation - 1)].state.Terminal()
    {
      if j == k { assert Key(j.task, j.generation - 1) == Key(t.task, latest); }
    }
  }

  lemma InsertOthers(s: State, t: Task, latest: nat)
    requires Fenced(s.tb.rows) && RefreshesOk(s) && IsLatest(s.tb.rows, t.task, latest) && t.generation == latest + 1
    requires latest > 0 ==> s.tb.rows[Key(t.task, latest)].state.Terminal()
    ensures Fenced(WithGeneration(s, t).tb.rows) && RefreshesOk(WithGeneration(s, t))
  {
    hide Fenced, VerdictFits;
    InsertFenced(s.tb.rows, t, latest);
    assert Key(t.task, t.generation) !in s.tb.rows;
  }

  lemma InsertEvolves(s: State, t: Task, latest: nat)
    requires IsLatest(s.tb.rows, t.task, latest) && t.generation == latest + 1
    ensures Evolves(s, WithGeneration(s, t))
  {
    var s', k := WithGeneration(s, t), Key(t.task, t.generation);
    forall j | j in s.tb.rows && j in s.history
      ensures j in s'.tb.rows && j in s'.history
          && LateralOk(s.tb.rows[j], s.history[j], s'.tb.rows[j], s'.history[j], s.p.now, s'.p.now)
    {
      assert j != k;
    }
  }

  lemma InsertFrame(s: State, t: Task, j: Key)
    requires j in s.tb.rows && GenerationOk(s, j) && j != Key(t.task, t.generation)
    ensures var s' := WithGeneration(s, t);
      j in s'.history && s'.history[j] == s.history[j] && j in s'.tb.attempts && s'.tb.attempts[j] == s.tb.attempts[j]
  {
    hide Distinct, AttemptsOk, EndsOk, CountsOk, ResultOk;
  }

  lemma SupersedeLeaves(t: Task)
    requires !t.state.Terminal()
    ensures Supersede(t).1 && Leaves(t, Stored(Supersede(t).0), Cut) && Supersede(t).0.state == Stale
  {
  }

  /** The fence of the previous generation, as a state of its own. */
  function FencedState(s: State, k: Key): State
    requires k in s.tb.rows && k in s.history
  {
    Noted(s, k, LeftHistory(s.history[k], Cut, false)).(
      tb := Applied(s.tb, k, Stored(Supersede(s.tb.rows[k]).0),
                    if s.tb.rows[k].state == Leased then AttemptStale else NoOutcome))
  }

  lemma FenceKept(s: State, k: Key)
    requires Inv(s) && k in s.tb.rows && k in s.history && !s.tb.rows[k].state.Terminal()
    ensures Kept(s, FencedState(s, k)) && FencedState(s, k).tb.rows == s.tb.rows[k := Stored(Supersede(s.tb.rows[k]).0)]
  {
    hide Inv, Invariant.Inv, Kept, ResultOk, Leaves;
    InvP(s);
    SupersedeLeaves(s.tb.rows[k]);
    var t' := Stored(Supersede(s.tb.rows[k]).0);
    OpenResult(s.tb, k, t');
    LeaveKept(s, FencedState(s, k), k, t', Cut, if s.tb.rows[k].state == Leased then AttemptStale else NoOutcome);
  }

  /** A request that is not refused and not a repetition: the new row, and the fence of the open one before it. */
  lemma RequestShape(s: State, s': State, latest: nat, input: RequestInput, bounds: Bounds) returns (t: Task)
    requires Request(s, s', latest, input, bounds) && s' != s
    requires Key(input.task, latest) in s.tb.rows ==> Key(input.task, latest) in s.history
    ensures FreshTask(t) && t.task == input.task && t.generation == latest + 1
    ensures latest == 0 || s.tb.rows[Key(t.task, latest)].state.Terminal() ==> s' == WithGeneration(s, t)
    ensures latest > 0 && !s.tb.rows[Key(t.task, latest)].state.Terminal() ==>
          s' == WithGeneration(FencedState(s, Key(t.task, latest)), t)
  {
    hide Current;
    var candidate := NewRequest(input.task, input.tenant, input.kind, input.profile, input.input, input.effects,
                                input.dispatch,
                                input.authorization, bounds).value;
    t := candidate.(generation := latest + 1);
  }

  lemma RequestMoved(s: State, s': State, latest: nat, t: Task)
    requires Inv(s) && FreshTask(t) && IsLatest(s.tb.rows, t.task, latest) && t.generation == latest + 1
    requires Key(t.task, latest) in s.tb.rows ==> Key(t.task, latest) in s.history
    requires latest == 0 || s.tb.rows[Key(t.task, latest)].state.Terminal() ==> s' == WithGeneration(s, t)
    requires latest > 0 && !s.tb.rows[Key(t.task, latest)].state.Terminal() ==>
          s' == WithGeneration(FencedState(s, Key(t.task, latest)), t)
    ensures Kept(s, s')
  {
    hide Inv, Kept, FreshTask, WithGeneration, Supersede;
    var prev := Key(t.task, latest);
    if latest == 0 || s.tb.rows[prev].state.Terminal() {
      InsertKept(s, s', t, latest);
    } else {
      FenceKept(s, prev);
      SupersedeLeaves(s.tb.rows[prev]);
      FenceThenInsert(s, FencedState(s, prev), s', t, latest);
    }
  }

  lemma RequestKept(s: State, s': State, latest: nat, input: RequestInput, bounds: Bounds)
    requires Inv(s) && Request(s, s', latest, input, bounds)
    ensures Kept(s, s')
  {
    hide Inv, Kept, FreshTask, WithGeneration, Supersede, FencedState, RequestTx;
    if s' == s {
      Unchanged(s);
    } else {
      if Key(input.task, latest) in s.tb.rows { PartsOf(s, Key(input.task, latest)); }
      var t := RequestShape(s, s', latest, input, bounds);
      RequestMoved(s, s', latest, t);
    }
  }

  lemma FenceThenInsert(s: State, s1: State, s': State, t: Task, latest: nat)
    requires Kept(s, s1) && latest > 0 && IsLatest(s.tb.rows, t.task, latest) && t.generation == latest + 1
        && FreshTask(t)
    requires Key(t.task, latest) in s1.tb.rows
        && s1.tb.rows == s.tb.rows[Key(t.task, latest) := s1.tb.rows[Key(t.task, latest)]]
    requires s1.tb.rows[Key(t.task, latest)].state.Terminal() && s' == WithGeneration(s1, t)
    ensures Kept(s, s')
  {
    hide Inv, Evolves;
    InsertKept(s1, s', t, latest);
    EvolvesTransitive(s, s1, s');
  }

  // ---------------------------------------------------------------- every step, every run

  lemma InitOk(s: State)
    requires Init(s)
    ensures Inv(s)
  {
    Preservation.InitOk(s.p);
    hide Invariant.Inv, Protocol.Init;
  }

  lemma StepKept(s: State, step: Step, s': State)
    requires Inv(s) && Next(s, step, s')
    ensures Kept(s, s')
  {
    hide Inv, Kept, Environment, Request, Claim, Heartbeat, Submit, Cancel, Ask, Sweep, StartRead, Record,
         Retain;
    match step
    case TEnvironment(pstep) => EnvironmentKept(s, s', pstep);
    case TRequest(latest, input, bounds) => RequestKept(s, s', latest, input, bounds);
    case TClaim(k, worker, lease, bounds) => ClaimKept(s, s', k, worker, lease, bounds);
    case THeartbeat(k, worker) => HeartbeatKept(s, s', k, worker);
    case TSubmit(k, sub, bounds) => SubmitKept(s, s', k, sub, bounds);
    case TCancel(latest, task) => CancelKept(s, s', latest, task);
    case TAsk(k, outcome) => AskKept(s, s', k, outcome);
    case TSweep(q, bounds) => SweepKept(s, s', q.key, q.answer, bounds);
    case TStartRead(k, worker, digest) => StartReadKept(s, s', k, worker, digest);
    case TRecord(reader, live) => RecordKept(s, s', reader, live);
    case TRetain(k, ordinals) => RetainKept(s, s', k, ordinals);
  }

  lemma {:induction false} RunInv(r: Run, i: nat)
    requires ValidRun(r) && i < |r.states|
    ensures Inv(r.states[i])
  {
    hide Inv, Evolves, Next, Init;
    if i == 0 {
      InitOk(r.states[0]);
    } else {
      RunInv(r, i - 1);
      StepKept(r.states[i - 1], r.steps[i - 1], r.states[i]);
    }
  }

  /** From any state of a run to any later one. */
  lemma {:induction false} RunEvolves(r: Run, i: nat, j: nat)
    requires ValidRun(r) && i <= j < |r.states|
    ensures Evolves(r.states[i], r.states[j])
    decreases j
  {
    hide Inv, Next, Init, Evolves;
    if i == j {
      assert Evolves(r.states[i], r.states[i]) by { SameEvolves(r.states[i]); }
    } else {
      RunEvolves(r, i, j - 1);
      RunInv(r, j - 1);
      StepKept(r.states[j - 1], r.steps[j - 1], r.states[j]);
      EvolvesTransitive(r.states[i], r.states[j - 1], r.states[j]);
    }
  }

  lemma SameEvolves(s: State)
    ensures Evolves(s, s)
  {
  }
}
