/** The owner of the background tables at work: each of its transactions, run on the object that holds them, is a step
    of the joint system, and so keeps its invariant. */
module Lane {
  import opened Basics
  import opened TaskRules
  import opened TaskTables
  import opened TaskSystem
  import opened TaskInvariant
  import TaskPreservation
  import TaskStore
  import Protocol
  import Invariant
  import Rows

  // ---------------------------------------------------------------- the step a transaction is

  function After(tb: Tables, tx: Result<Tables, Error>): Tables {
    if tx.Ok? then tx.value else tb
  }

  lemma StepIsKept(s: State, step: Step, s': State)
    requires Inv(s) && Next(s, step, s')
    ensures Inv(s')
  {
    hide Inv, Next, Evolves;
    TaskPreservation.StepKept(s, step, s');
  }

  lemma Requests(s: State, latest: nat, input: RequestInput, bounds: Bounds) returns (s': State)
    requires IsLatest(s.tb.rows, input.task, latest)
    ensures Next(s, TRequest(latest, input, bounds), s') && s'.p == s.p
    ensures s'.tb == After(s.tb, RequestTx(s.tb, s.p.db, latest, input, s.p.now, bounds))
  {
    var tx := RequestTx(s.tb, s.p.db, latest, input, s.p.now, bounds);
    hide RequestTx;
    if tx.Err? || tx.value == s.tb {
      s' := s;
    } else {
      var prev, next := Key(input.task, latest), Key(input.task, latest + 1);
      var s1 := if latest > 0 && !s.tb.rows[prev].state.Terminal()
        then Noted(s, prev, Closed(HistoryOf(s, prev), Cut)) else s;
      s' := Noted(s1, next, History([], [], 0, 0, 0)).(tb := tx.value);
    }
    assert Request(s, s', latest, input, bounds);
  }

  lemma Claims(s: State, k: Key, worker: Id, lease: Time, bounds: Bounds) returns (s': State)
    ensures Next(s, TClaim(k, worker, lease, bounds), s') && s'.p == s.p
    ensures s'.tb == After(s.tb, ClaimTx(s.tb, k, worker, lease, s.p.now, bounds))
  {
    var tx := ClaimTx(s.tb, k, worker, lease, s.p.now, bounds);
    hide ClaimTx;
    if tx.Err? {
      s' := s;
    } else {
      var h := HistoryOf(s, k);
      var ends := if |h.ends| > 0 && h.ends[|h.ends| - 1] == Running then h.ends[|h.ends| - 1 := TakenOver] else h.ends;
      s' := Noted(s, k, h.(claimants := h.claimants + [worker], ends := ends + [Running],
                           changes := h.changes + 1)).(tb := tx.value);
    }
    assert Claim(s, s', k, worker, lease, bounds);
  }

  lemma Beats(s: State, k: Key, worker: Id) returns (s': State)
    ensures Next(s, THeartbeat(k, worker), s') && s'.p == s.p
    ensures s'.tb == After(s.tb, HeartbeatTx(s.tb, k, worker, s.p.now))
  {
    var tx := HeartbeatTx(s.tb, k, worker, s.p.now);
    hide HeartbeatTx;
    s' := if tx.Err? then s else Noted(s, k, HistoryOf(s, k).(beats := HistoryOf(s, k).beats + 1)).(tb := tx.value);
    assert Heartbeat(s, s', k, worker);
  }

  lemma Submits(s: State, k: Key, sub: Submission, bounds: Bounds) returns (s': State)
    ensures Next(s, TSubmit(k, sub, bounds), s')
    ensures var tx := SubmitTx(s.tb, s.p.db, k, sub, s.p.now, bounds);
      && s'.tb == (if tx.Ok? then tx.value.tb else s.tb) && s'.p.db == (if tx.Ok? then tx.value.db else s.p.db)
      && s'.p == s.p.(db := s'.p.db)
  {
    var tx := SubmitTx(s.tb, s.p.db, k, sub, s.p.now, bounds);
    Unchanged(s.tb, s.p.db, k, sub, s.p.now, bounds);
    hide SubmitTx;
    if tx.Err? || !tx.value.decision.changed {
      s' := s;
    } else {
      var d := tx.value.decision;
      var h := Closed(HistoryOf(s, k),
                      if d.accepted then Completed else if d.outcome == AttemptFailed then FailedByClaimant else Cut);
      s' := Noted(s, k, if d.accepted then h.(acceptances := h.acceptances + 1) else h).(tb := tx.value.tb,
          p := s.p.(db := tx.value.db));
    }
    assert Submit(s, s', k, sub, bounds);
  }

  lemma Unchanged(tb: Tables, db: Rows.Db, k: Key, sub: Submission, now: Time, bounds: Bounds)
    ensures var tx := SubmitTx(tb, db, k, sub, now, bounds); tx.Ok? && !tx.value.decision.changed ==>
          tx.value.tb == tb && tx.value.db == db
  {
    hide DecideSubmit, Current;
  }

  lemma Cancels(s: State, latest: nat, task: Id) returns (s': State)
    requires IsLatest(s.tb.rows, task, latest)
    ensures Next(s, TCancel(latest, task), s') && s'.p == s.p
    ensures s'.tb == After(s.tb, CancelTx(s.tb, latest, task))
  {
    var tx, k := CancelTx(s.tb, latest, task), Key(task, latest);
    if latest > 0 && s.tb.rows[k].state.Terminal() { assert tx == Ok(s.tb); }
    hide CancelTx;
    s' := if tx.Err? || latest == 0
        || s.tb.rows[k].state.Terminal() then s else Noted(s, k, Closed(HistoryOf(s, k), Cut)).(tb := tx.value);
    assert latest == 0 ==> tx.Err?;
    assert Cancel(s, s', latest, task);
  }

  lemma Asks(s: State, k: Key, outcome: DispatchOutcome) returns (s': State)
    requires k in s.tb.rows && (s.tb.rows[k].effects != External ==> outcome == DispatchUnknown)
    ensures Next(s, TAsk(k, outcome), s') && s'.p == s.p && s'.tb == s.tb
    ensures Asked(k, outcome, s.tb.rows[k].attemptCount) in s'.asked
  {
    s' := s.(asked := s.asked + {Asked(k, outcome, s.tb.rows[k].attemptCount)});
  }

  lemma Sweeps(s: State, q: Asked, bounds: Bounds) returns (s': State)
    requires q in s.asked && q.key in s.tb.rows
    ensures Next(s, TSweep(q, bounds), s') && s'.p == s.p
    ensures SweepTx(s.tb, q.key, q.answer, s.p.now, bounds) == Ok(s'.tb)
  {
    var k, outcome := q.key, q.answer;
    var tx, d := SweepTx(s.tb, k, outcome, s.p.now, bounds), DecideExpire(s.tb.rows[k], outcome, s.p.now, bounds);
    assert tx.Ok? && (!d.changed ==> tx.value == s.tb);
    hide SweepTx, DecideExpire;
    s' := if !d.changed then s else Noted(s, k, Closed(HistoryOf(s, k), ExpiredAfter(outcome))).(tb := tx.value);
    assert Sweep(s, s', k, outcome, bounds);
  }

  lemma Counted(s: State)
    requires Inv(s)
    ensures forall k | k in s.tb.rows :: k.generation >= 1
  {
    hide Invariant.Inv;
    forall k | k in s.tb.rows ensures k.generation >= 1 { assert GenerationOk(s, k); }
  }

  // ---------------------------------------------------------------- the owner

  class Owner {
    const tasks: TaskStore.Tasks
    /** The joint system as it stands. */
    ghost var s: State

    ghost predicate Valid()
      reads this, tasks, tasks.catalog
    {
      s.tb == tasks.View() && s.p.db == tasks.catalog.View() && tasks.Valid() && Inv(s)
    }

    constructor (tasks: TaskStore.Tasks, ghost p: Protocol.State)
      requires tasks.View() == TaskTables.Tables(map[], map[], map[], []) && Protocol.Init(p)
          && tasks.catalog.View() == p.db
      ensures Valid() && Init(s) && this.tasks == tasks
    {
      this.tasks := tasks;
      s := State(p, TaskTables.Tables(map[], map[], map[], []), {}, {}, map[]);
      new;
      TaskPreservation.InitOk(s);
    }

    method Request(input: RequestInput, now: Time, bounds: Bounds) returns (r: Result<Task, Error>, existing: bool,
        ghost latest: nat)
      requires Valid() && now == s.p.now
      modifies this`s, tasks`rows, tasks`attempts, tasks`events
      ensures Valid() && Next(old(s), TRequest(latest, input, bounds), s)
    {
      hide Inv, Next, RequestTx;
      r, existing, latest := tasks.Request(input, now, bounds);
      ghost var s' := Requests(s, latest, input, bounds);
      StepIsKept(s, TRequest(latest, input, bounds), s');
      s := s';
    }

    method Claim(k: Key, worker: Id, lease: Time, now: Time, bounds: Bounds) returns (r: Result<Task, Error>)
      requires Valid() && now == s.p.now
      modifies this`s, tasks`rows, tasks`attempts
      ensures Valid() && Next(old(s), TClaim(k, worker, lease, bounds), s)
      ensures r.Ok? ==> k in s.tb.rows && r.value == s.tb.rows[k] && Holding(r.value, worker, now)
    {
      hide Inv, Next;
      ghost var s' := Claims(s, k, worker, lease, bounds);
      StepIsKept(s, TClaim(k, worker, lease, bounds), s');
      r := tasks.Claim(k, worker, lease, now, bounds);
      s := s';
    }

    method Heartbeat(k: Key, worker: Id, now: Time) returns (r: Result<Task, Error>)
      requires Valid() && now == s.p.now
      modifies this`s, tasks`rows, tasks`attempts
      ensures Valid() && Next(old(s), THeartbeat(k, worker), s)
    {
      hide Inv, Next, HeartbeatTx;
      ghost var s' := Beats(s, k, worker);
      StepIsKept(s, THeartbeat(k, worker), s');
      r := tasks.Heartbeat(k, worker, now);
      s := s';
    }

    method Submit(k: Key, sub: Submission, now: Time, bounds: Bounds) returns (r: Result<SubmitDecision, Error>)
      requires Valid() && now == s.p.now
      modifies this`s, tasks`rows, tasks`attempts, tasks.catalog`descriptors, tasks.catalog`grants
      ensures Valid() && Next(old(s), TSubmit(k, sub, bounds), s)
    {
      hide Inv, Next, SubmitTx;
      ghost var s' := Submits(s, k, sub, bounds);
      StepIsKept(s, TSubmit(k, sub, bounds), s');
      r := tasks.Submit(k, sub, now, bounds);
      s := s';
    }

    method Cancel(task: Id) returns (r: Result<Task, Error>, changed: bool, ghost latest: nat)
      requires Valid()
      modifies this`s, tasks`rows, tasks`attempts
      ensures Valid() && Next(old(s), TCancel(latest, task), s)
    {
      hide Inv, Next, CancelTx;
      r, changed, latest := tasks.Cancel(task);
      ghost var s' := Cancels(s, latest, task);
      StepIsKept(s, TCancel(latest, task), s');
      s := s';
    }

    /** SweepExpired before its transaction: the row is read and Control asked about an external effect. */
    method Ask(k: Key, control: DispatchOutcome) returns (outcome: DispatchOutcome, ghost attempt: nat)
      requires Valid() && k in s.tb.rows
      modifies this`s
      ensures Valid() && Next(old(s), TAsk(k, outcome), s)
      ensures Asked(k, outcome, attempt) in s.asked && (outcome == control || s.tb.rows[k].effects != External)
    {
      hide Inv, Next;
      outcome := if tasks.rows[k].effects == External then control else DispatchUnknown;
      attempt := s.tb.rows[k].attemptCount;
      ghost var s' := Asks(s, k, outcome);
      StepIsKept(s, TAsk(k, outcome), s');
      s := s';
    }

    /** The transaction of one lease of SweepExpired, with the answer obtained before it. */
    method Sweep(k: Key, outcome: DispatchOutcome, ghost attempt: nat, now: Time, bounds: Bounds)
      returns (settled: nat)
      requires Valid() && now == s.p.now && Asked(k, outcome, attempt) in s.asked && k in s.tb.rows
          && (s.tb.rows[k].effects != External ==> outcome == DispatchUnknown)
      modifies this`s, tasks`rows, tasks`attempts
      ensures Valid() && Next(old(s), TSweep(Asked(k, outcome, attempt), bounds), s)
    {
      hide Inv, Next, SweepTx;
      ghost var q := Asked(k, outcome, attempt);
      ghost var s' := Sweeps(s, q, bounds);
      StepIsKept(s, TSweep(q, bounds), s');
      var visits := [TaskStore.Visit(k, Some(outcome), now)];
      assert visits[..0] == [] && TaskStore.SweepAll(s.tb, visits[..0], bounds) == s.tb;
      settled := tasks.SweepExpired(visits, bounds);
      s := s';
    }

    /** Anything else in the joint system moves: the clock, a worker, another owner, a call or a grant. The tables
        become what that step left. */
    method Environment(tb: TaskTables.Tables, db: Rows.Db, ghost step: Step, ghost s': State)
      requires Valid() && Next(s, step, s') && s'.tb == tb && s'.p.db == db
      modifies this`s, tasks, tasks.catalog
      ensures Valid() && s == s'
    {
      hide Inv, Next;
      StepIsKept(s, step, s');
      Counted(s');
      tasks.rows, tasks.attempts, tasks.refreshes, tasks.events := tb.rows, tb.attempts, tb.refreshes, tb.events;
      tasks.catalog.calls, tasks.catalog.grants := db.calls, db.grants;
      tasks.catalog.descriptors, tasks.catalog.servers := db.descriptors, db.servers;
      s := s';
    }
  }
}
