/** The owner of the background tables as it changes them: each method is one transaction,
    loading under the row lock, deciding, and writing by compare-and-set; a refused one
    leaves everything as it was. */
module TaskStore {
  import opened Basics
  import opened TaskRules
  import opened TaskTables
  import Rows
  import Sql
  import Store

  /** One listed lease: Control's answer about it (None: the query failed) and the instant of its transaction. */
  datatype Visit = Visit(key: Key, answer: Option<DispatchOutcome>, now: Time)

  /** What the sweep of one lease does; an external effect without an answer is left alone. */
  function SweepOne(tb: TaskTables.Tables, v: Visit, bounds: Bounds): TaskTables.Tables {
    if v.key !in tb.rows then tb
    else if tb.rows[v.key].effects == External && v.answer.None? then tb
    else
      var outcome := if tb.rows[v.key].effects == External then v.answer.value else DispatchUnknown;
      SweepTx(tb, v.key, outcome, v.now, bounds).value
  }

  function SweepAll(tb: TaskTables.Tables, visits: seq<Visit>, bounds: Bounds): TaskTables.Tables {
    if visits == [] then tb
    else SweepOne(SweepAll(tb, visits[..|visits| - 1], bounds), visits[|visits| - 1], bounds)
  }

  /** The sweep of one lease settles it. */
  predicate SettlesOne(tb: TaskTables.Tables, v: Visit, bounds: Bounds) {
    && v.key in tb.rows
    && (tb.rows[v.key].effects == External ==> v.answer.Some?)
    && tb.rows[v.key].state == Leased && tb.rows[v.key].leaseUntil <= v.now
  }

  /** How many leases a sweep settles. */
  function SettledBy(tb: TaskTables.Tables, visits: seq<Visit>, bounds: Bounds): nat {
    if visits == [] then 0
    else
      var init, last := visits[..|visits| - 1], visits[|visits| - 1];
      SettledBy(tb, init, bounds) + if SettlesOne(SweepAll(tb, init, bounds), last, bounds) then 1 else 0
  }

  /** What a request did, given the latest generation it found. */
  ghost predicate Requested(tb: TaskTables.Tables, db: Rows.Db, latest: nat, input: RequestInput, now: Time,
                            bounds: Bounds,
                            tb': TaskTables.Tables, r: Result<Task, Error>, existing: bool) {
    && IsLatest(tb.rows, input.task, latest)
    && var tx, k := RequestTx(tb, db, latest, input, now, bounds), Key(input.task, latest + 1);
    && (if tx.Ok? then r.Ok? && tb' == tx.value else r == Err(tx.error) && tb' == tb)
    && (existing ==> r.Ok? && latest > 0 && tb' == tb && r.value == tb.rows[Key(input.task, latest)])
    && (r.Ok? && !existing ==> k in tb'.rows && r.value == tb'.rows[k] && tb'.events == tb.events + [k])
  }

  /** What a cancellation did. */
  ghost predicate CanceledLatest(tb: TaskTables.Tables, latest: nat, task: Id, tb': TaskTables.Tables, r: Result<Task,
                                 Error>, changed: bool) {
    && IsLatest(tb.rows, task, latest)
    && var tx, k := CancelTx(tb, latest, task), Key(task, latest);
    && (if tx.Ok? then r.Ok? && tb' == tx.value else r == Err(tx.error) && tb' == tb)
    && (changed <==> latest > 0 && !tb.rows[k].state.Terminal())
    && (r.Ok? ==> k in tb'.rows && tb'.rows[k] == (if changed then Stored(r.value) else r.value) && (!changed ==>
        tb' == tb))
  }

  class Tasks {
    const catalog: Store.Tables
    var rows: map<Key, Task>
    var attempts: map<Key, map<nat, Attempt>>
    var refreshes: map<Key, Verdict>
    var events: seq<Key>

    constructor (catalog: Store.Tables)
      ensures Valid() && View() == TaskTables.Tables(map[], map[], map[], []) && this.catalog == catalog
    {
      this.catalog := catalog;
      rows, attempts, refreshes, events := map[], map[], map[], [];
    }

    function View(): TaskTables.Tables
      reads this
    {
      TaskTables.Tables(rows, attempts, refreshes, events)
    }

    /** Generations count from one. */
    ghost predicate Valid()
      reads this
    {
      forall k | k in rows :: k.generation >= 1
    }

    /** UpdateRequest, a compare-and-set on the revision that was read, and the outcome of the current attempt. */
    method Apply(k: Key, t: Task, readRevision: nat, outcome: AttemptOutcome) returns (n: nat)
      modifies this`rows, this`attempts
      ensures n == if k in old(rows) && old(rows)[k].revision == readRevision then 1 else 0
      ensures View() == if n == 1 then Applied(old(View()), k, t, outcome) else old(View())
    {
      if k !in rows || rows[k].revision != readRevision { return 0; }
      rows := rows[k := Stored(t)];
      var list := if k in attempts then attempts[k] else map[];
      if outcome != NoOutcome && t.attemptCount > 0 && t.attemptCount in list {
        list := list[t.attemptCount := list[t.attemptCount].(outcome := outcome)];
      }
      attempts := attempts[k := list];
      n := 1;
    }

    /** GetLatestRequestForUpdate. */
    method Latest(task: Id) returns (latest: nat)
      requires Valid()
      ensures IsLatest(rows, task, latest)
    {
      latest := 0;
      var rest := rows.Keys;
      while rest != {}
        invariant rest <= rows.Keys && (latest == 0 || Key(task, latest) in rows)
        invariant forall k | k in rows.Keys - rest && k.task == task :: 1 <= k.generation <= latest
        decreases rest
      {
        var k :| k in rest;
        if k.task == task && k.generation > latest { latest := k.generation; }
        rest := rest - {k};
      }
    }

    /** Request: the frozen row and its event in one commit. */
    method Request(input: RequestInput, now: Time, bounds: Bounds) returns (r: Result<Task, Error>, existing: bool,
        ghost found: nat)
      requires Valid()
      modifies this`rows, this`attempts, this`events
      ensures Valid()
      ensures Requested(old(View()), catalog.View(), found, input, now, bounds, View(), r, existing)
    {
      existing := false;
      var latest := Latest(input.task);
      found := latest;
      var candidate := NewRequest(input.task, input.tenant, input.kind, input.profile, input.input, input.effects,
                                  input.dispatch, input.authorization, bounds);
      if candidate.Err? { return Err(candidate.error), false, latest; }
      var t := candidate.value;
      var rows0, attempts0 := rows, attempts;
      if latest > 0 {
        var prev := rows[Key(input.task, latest)];
        if prev.tenant != input.tenant { return Err(Forbidden), false, latest; }
        if prev.input == t.input { return Ok(prev), true, latest; }
        t := t.(generation := latest + 1);
        var (fenced, changed) := Supersede(prev);
        if changed {
          var _ := Apply(Key(input.task, latest), fenced, prev.revision,
                         if prev.state == Leased then AttemptStale else NoOutcome);
        }
      }
      if t.authorization.None? { rows, attempts := rows0, attempts0; return Err(Invalid), false, latest; }
      if !Current(catalog.View(), t.authorization.value, t.tenant, now) {
        rows, attempts := rows0, attempts0; return Err(Forbidden), false, latest; }
      var k := Key(t.task, t.generation);
      rows, attempts, events := rows[k := t], attempts[k := map[]], events + [k];
      r := Ok(t);
    }

    /** Claim: one claimant, one attempt. */
    method Claim(k: Key, worker: Id, lease: Time, now: Time, bounds: Bounds) returns (r: Result<Task, Error>)
      requires Valid()
      modifies this`rows, this`attempts
      ensures Valid()
      ensures var tx := ClaimTx(old(View()), k, worker, lease, now, bounds);
        if tx.Ok? then View() == tx.value && k in rows && r == Ok(rows[k])
        else r == Err(tx.error) && View() == old(View())
    {
      if k !in rows { return Err(NotFound); }
      var t, list := rows[k], if k in attempts then attempts[k] else map[];
      var d := DecideClaim(t, list, worker, lease, now, bounds);
      if d.Err? { return Err(d.error); }
      if d.value.expiredPrevious && t.attemptCount > 0 && t.attemptCount in list {
        list := list[t.attemptCount := list[t.attemptCount].(outcome := AttemptExpired)];
      }
      rows := rows[k := Stored(d.value.task)];
      attempts := attempts[k := list[d.value.attempt.ordinal := d.value.attempt]];
      r := Ok(d.value.task);
    }

    method Heartbeat(k: Key, worker: Id, now: Time) returns (r: Result<Task, Error>)
      requires Valid()
      modifies this`rows, this`attempts
      ensures Valid()
      ensures var tx := HeartbeatTx(old(View()), k, worker, now);
        if tx.Ok? then View() == tx.value && k in rows && r == Ok(rows[k])
        else r == Err(tx.error) && View() == old(View())
    {
      if k !in rows { return Err(NotFound); }
      var t := rows[k];
      var d := DecideHeartbeat(t, CurrentAttempt(View(), k, t), worker, now);
      if d.Err? { return d; }
      var _ := Apply(k, d.value, t.revision, NoOutcome);
      r := d;
    }

    /** Submit: the decision, the attempt and, for an accepted drift, the withdrawal of the revision, in one commit. */
    method Submit(k: Key, sub: Submission, now: Time, bounds: Bounds) returns (r: Result<SubmitDecision, Error>)
      requires Valid()
      modifies this`rows, this`attempts, catalog`descriptors, catalog`grants
      ensures Valid()
      ensures var tx := SubmitTx(old(View()), old(catalog.View()), k, sub, now, bounds);
        if tx.Ok? then r == Ok(tx.value.decision) && View() == tx.value.tb && catalog.View() == tx.value.db
        else r == Err(tx.error) && View() == old(View()) && catalog.View() == old(catalog.View())
    {
      hide DecideSubmit, Sql.AcceptDrift;
      if k !in rows { return Err(NotFound); }
      var t := rows[k];
      if t.authorization.None? { return Err(Invalid); }
      var d := DecideSubmit(t, CurrentAttempt(View(), k, t), sub,
                            Current(catalog.View(), t.authorization.value, t.tenant,
                                    now), now, bounds, Recorded(View(), k, t));
      if d.Err? { return d; }
      if d.value.changed {
        var _ := Apply(k, d.value.task, t.revision, d.value.outcome);
        if d.value.accepted && t.profile == CatalogRefreshProfile && k in refreshes && refreshes[k].drift {
          catalog.AcceptDrift(Rows.DescriptorKey(refreshes[k].server, refreshes[k].revision));
        }
      }
      r := d;
    }

    /** Cancel: the latest generation, and whether it was still open. */
    method Cancel(task: Id) returns (r: Result<Task, Error>, changed: bool, ghost found: nat)
      requires Valid()
      modifies this`rows, this`attempts
      ensures Valid()
      ensures CanceledLatest(old(View()), found, task, View(), r, changed)
    {
      changed := false;
      var latest := Latest(task);
      found := latest;
      if latest == 0 { return Err(NotFound), false, latest; }
      var k := Key(task, latest);
      var t := rows[k];
      var d := DecideCancel(t);
      if d.changed { var _ := Apply(k, d.task, t.revision, d.outcome); }
      r, changed := Ok(d.task), d.changed;
    }

    /** SweepExpired over the listed leases, each in its own transaction. */
    method SweepExpired(visits: seq<Visit>, bounds: Bounds) returns (settled: nat)
      requires Valid()
      modifies this`rows, this`attempts
      ensures Valid() && View() == SweepAll(old(View()), visits, bounds)
          && settled == SettledBy(old(View()), visits, bounds)
    {
      settled := 0;
      for i := 0 to |visits|
        invariant Valid() && View() == SweepAll(old(View()), visits[..i], bounds)
        invariant settled == SettledBy(old(View()), visits[..i], bounds)
      {
        var v := visits[i];
        assert visits[..i + 1][..i] == visits[..i];
        if v.key in rows {
          var t := rows[v.key];
          if t.effects != External || v.answer.Some? {
            var outcome := if t.effects == External then v.answer.value else DispatchUnknown;
            var d := DecideExpire(t, outcome, v.now, bounds);
            if d.changed {
              var _ := Apply(v.key, d.task, t.revision, d.outcome);
              settled := settled + 1;
            }
          }
        }
      }
      assert visits[..|visits|] == visits;
    }

    /** InsertRefresh: the first record of a generation wins. */
    method Record(k: Key, v: Verdict)
      modifies this`refreshes
      ensures View() == RecordTx(old(View()), k, v)
    {
      if k !in refreshes { refreshes := refreshes[k := v]; }
    }
  }
}
