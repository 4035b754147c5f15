/** A run of the joint system from empty tables in which a sweep acts on an answer from an earlier attempt. */
module TaskWitness {
  import opened Basics
  import opened TaskRules
  import opened TaskTables
  import opened TaskSystem
  import opened Trace
  import Answers
  import Lane
  import Protocol
  import Rows
  import Witness

  // ---------------------------------------------------------------- runs of the joint system

  /** The joint system with nothing requested yet. */
  function Idle(p: Protocol.State): State {
    State(p, Tables(map[], map[], map[], []), {}, {}, map[])
  }

  /** Every run of the protocol is a run of the joint system in which the lane is idle. */
  lemma Lifted(pr: Protocol.Run) returns (r: Run)
    requires Protocol.ValidRun(pr)
    ensures ValidRun(r) && |r.steps| == |pr.steps| && r.states[|r.steps|] == Idle(pr.states[|pr.steps|])
  {
    hide Protocol.Next, Protocol.Init;
    r := Run(seq(|pr.states|, i requires 0 <= i < |pr.states| => Idle(pr.states[i])),
             seq(|pr.steps|, i requires 0 <= i < |pr.steps| => TEnvironment(pr.steps[i])));
    forall i | 0 <= i < |r.steps| ensures Next(r.states[i], r.steps[i], r.states[i + 1]) {
      assert Protocol.Next(pr.states[i], pr.steps[i], pr.states[i + 1]);
    }
  }

  lemma Extended(r: Run, step: Step, s: State) returns (r': Run)
    requires ValidRun(r) && Next(r.states[|r.steps|], step, s)
    ensures ValidRun(r') && r'.steps == r.steps + [step] && r'.states == r.states + [s]
    ensures r'.states[|r'.steps|] == s
  {
    hide Next, Init;
    r' := Run(r.states + [s], r.steps + [step]);
    forall i | 0 <= i < |r'.steps| ensures Next(r'.states[i], r'.steps[i], r'.states[i + 1]) {
      if i == |r.steps| { assert r'.states[i] == r.states[i]; }
    }
  }

  // ---------------------------------------------------------------- the generation of the run

  const KEY := Key(0, 1)

  const BOUNDS := Bounds(1, 0, 3)

  function Input(): RequestInput {
    RequestInput(0, 0, LocalCheckKind, LocalCheckProfile, LocalCheckInput([]), External, Some(9), Some(0))
  }

  /** The row of the generation. */
  function Row(state: TaskState, worker: Option<Id>, until: Time, count: nat, retryAt: Option<Time>, failure: Failure,
               revision: nat): Task {
    Task(0, 1, 0, LocalCheckKind, LocalCheckProfile, LocalCheckInput([]), External, Some(9), Some(0), 3,
         state, worker, until, count, retryAt, NoRef, Malformed, failure, revision)
  }

  function Requested(): Task {
    Row(Pending, None, 0, 0, None, NoFailure, 1)
  }

  function FirstLease(): Task {
    Row(Leased, Some(1), 1, 1, None, NoFailure, 2)
  }

  function Rescheduled(): Task {
    Row(RetryScheduled, None, 0, 1, Some(1), LeaseExpired, 3)
  }

  function SecondLease(): Task {
    Row(Leased, Some(2), 2, 2, None, NoFailure, 4)
  }

  function First(outcome: AttemptOutcome): map<nat, Attempt> {
    map[1 := Attempt(1, 1, 0, 1, outcome)]
  }

  function OneRow(row: Task, attempts: map<nat, Attempt>): Tables {
    Tables(map[KEY := row], map[KEY := attempts], map[], [KEY])
  }

  predicate Ready(p: Protocol.State, now: Time) {
    p.now == now && Current(p.db, 0, 0, now)
  }

  lemma IsRequested(db: Rows.Db)
    requires Current(db, 0, 0, 0)
    ensures IsLatest(map[], 0, 0)
    ensures RequestTx(Tables(map[], map[], map[], []), db, 0, Input(), 0, BOUNDS) == Ok(OneRow(Requested(), map[]))
  {
    hide Current;
    assert map[][KEY := Requested()] == map[KEY := Requested()] && [] + [KEY] == [KEY];
    var none: map<nat, Attempt> := map[];
    assert map[][KEY := none] == map[KEY := none];
  }

  lemma IsClaimed()
    ensures ClaimTx(OneRow(Requested(), map[]), KEY, 1, 1, 0, BOUNDS) == Ok(OneRow(FirstLease(), First(NoOutcome)))
  {
    assert OneRow(Requested(), map[]).rows[KEY := FirstLease()] == map[KEY := FirstLease()];
    assert map[KEY := map[]][KEY := First(NoOutcome)] == map[KEY := First(NoOutcome)];
  }

  lemma IsRescheduled()
    ensures SweepTx(OneRow(FirstLease(), First(NoOutcome)), KEY, DispatchNotSent, 1, BOUNDS)
         == Ok(OneRow(Rescheduled(), First(AttemptExpired)))
  {
    assert map[KEY := FirstLease()][KEY := Rescheduled()] == map[KEY := Rescheduled()];
    assert First(NoOutcome)[1 := Attempt(1, 1, 0, 1, AttemptExpired)] == First(AttemptExpired);
    assert map[KEY := First(NoOutcome)][KEY := First(AttemptExpired)] == map[KEY := First(AttemptExpired)];
  }

  lemma IsClaimedAgain()
    ensures var tx := ClaimTx(OneRow(Rescheduled(), First(AttemptExpired)), KEY, 2, 1, 1, BOUNDS);
      tx.Ok? && tx.value.rows == map[KEY := SecondLease()]
  {
    assert map[KEY := Rescheduled()][KEY := SecondLease()] == map[KEY := SecondLease()];
  }

  // ---------------------------------------------------------------- the run

  lemma Waits(s: State) returns (s': State)
    ensures Next(s, TEnvironment(Protocol.STick(1)), s') && s' == s.(p := s.p.(now := s.p.now + 1))
  {
    s' := s.(p := s.p.(now := s.p.now + 1));
  }

  /** The active grant of the protocol's run, as the authorization of the request. */
  lemma ActiveRun(o: Protocol.Options) returns (r: Run)
    ensures ValidRun(r)
    ensures var s := r.states[|r.steps|];
      && s == Idle(s.p) && Ready(s.p, 0) && 0 in s.p.db.grants && s.p.db.grants[0].expires.None?
  {
    hide Protocol.ValidRun, Next;
    var pr := Witness.ActiveRun(o);
    Witness.RunLength(pr);
    r := Lifted(pr);
  }

  /** The first attempt is leased and its lease runs out; Control is asked and answers that nothing was sent. */
  lemma FirstAsked(o: Protocol.Options) returns (r: Run)
    ensures ValidRun(r)
    ensures var s := r.states[|r.steps|];
      && s.p.now == 1 && s.tb == OneRow(FirstLease(), First(NoOutcome)) && Asked(KEY, DispatchNotSent, 1) in s.asked
  {
    hide Next, ValidRun, RequestTx, ClaimTx, Current, OneRow, First, FirstLease, Requested;
    r := ActiveRun(o);
    RunLength(r);
    var s0 := r.states[|r.steps|];
    IsRequested(s0.p.db);
    var s1 := Lane.Requests(s0, 0, Input(), BOUNDS);
    r := Extended(r, TRequest(0, Input(), BOUNDS), s1);
    IsClaimed();
    var s2 := Lane.Claims(s1, KEY, 1, 1, BOUNDS);
    r := Extended(r, TClaim(KEY, 1, 1, BOUNDS), s2);
    var s3 := Waits(s2);
    r := Extended(r, TEnvironment(Protocol.STick(1)), s3);
    FirstLeaseIs(s3.tb);
    var s4 := Lane.Asks(s3, KEY, DispatchNotSent);
    r := Extended(r, TAsk(KEY, DispatchNotSent), s4);
  }

  lemma FirstLeaseIs(tb: Tables)
    requires tb == OneRow(FirstLease(), First(NoOutcome))
    ensures KEY in tb.rows && tb.rows[KEY].effects == External && tb.rows[KEY].attemptCount == 1
  {
  }

  lemma SecondLeaseIs(rows: map<Key, Task>)
    requires rows == map[KEY := SecondLease()]
    ensures KEY in rows && rows[KEY].state == Leased && rows[KEY].attemptCount == 2 && rows[KEY].worker == Some(2)
    ensures rows[KEY].effects == External && rows[KEY].leaseUntil == 2
  {
  }

  /** Two sweepers asked while the first attempt was current. One settles it; the second attempt is leased and its lease
      runs out; then the other sweeper ends the second attempt with the answer about the first. */
  lemma StaleAnswer(o: Protocol.Options) returns (r: Run, j: nat)
    ensures ValidRun(r) && j < |r.steps|
    ensures KEY in r.states[j].tb.rows && r.states[j].tb.rows[KEY].effects == External
    ensures EndsHere(r.states[j], r.steps[j], KEY, 2, 2, ExpiredAfter(DispatchNotSent))
    ensures r.steps[j].TSweep? && r.steps[j].asked.attempt == 1
  {
    hide Next, ValidRun, SweepTx, ClaimTx, OneRow, First, FirstLease, Rescheduled, SecondLease;
    var q := Asked(KEY, DispatchNotSent, 1);
    r := FirstAsked(o);
    RunLength(r);
    var s0 := r.states[|r.steps|];
    FirstLeaseIs(s0.tb);
    IsRescheduled();
    var s1 := Lane.Sweeps(s0, q, BOUNDS);
    AsksStay(s0, TSweep(q, BOUNDS), s1);
    r := Extended(r, TSweep(q, BOUNDS), s1);
    IsClaimedAgain();
    var s2 := Lane.Claims(s1, KEY, 2, 1, BOUNDS);
    AsksStay(s1, TClaim(KEY, 2, 1, BOUNDS), s2);
    r := Extended(r, TClaim(KEY, 2, 1, BOUNDS), s2);
    var s3 := Waits(s2);
    r := Extended(r, TEnvironment(Protocol.STick(1)), s3);
    SecondLeaseIs(s3.tb.rows);
    var s4 := Lane.Sweeps(s3, q, BOUNDS);
    j := |r.steps|;
    r := Extended(r, TSweep(q, BOUNDS), s4);
    RunLength(r);
  }

  lemma AsksStay(s: State, step: Step, s': State)
    requires Next(s, step, s') && !step.TAsk?
    ensures s'.asked == s.asked
  {
    Answers.AskedFrame(s, step, s');
  }

  lemma RunLength(r: Run)
    requires ValidRun(r)
    ensures |r.states| == |r.steps| + 1
  {
  }
}
