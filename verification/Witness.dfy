/** Runs from empty tables that show what the service can do: a call is admitted, marked and sent, and what may
    follow. */
module Witness {
  import opened Basics
  import opened Rows
  import opened Protocol
  import opened Observations
  import Invariant
  import Preservation
  import Theorems
  import Sql

  // ---------------------------------------------------------------- the objects of the run

  const KEY := DescriptorKey(0, 1)

  const SCOPE := Scope(0, None, 1, {})

  function Revision(state: CatalogState): DescriptorRow {
    DescriptorRow(7, {"m"}, 1, state)
  }

  function Granted(state: GrantState, receipt: string): Grant {
    Grant(0, 1, TenantSubject, 0, 1, 7, {"m"}, None, state, receipt, NoFence, None, NoCode)
  }

  function Catalogued(state: CatalogState, grants: map<Id, Grant>): Db {
    Db(map[], grants, map[KEY := Revision(state)], map[0 := Server(0, 1)])
  }

  /** The tables with the one call. */
  function Called(row: Call): Db {
    Catalogued(Approved, map[0 := Granted(Active, "r")]).(calls := map[0 := row])
  }

  function Row(state: CallState, dispatch: Option<Id>, marker: Option<Time>, deadline: Time): Call {
    Call(0, 0, 1, 0, 1, 7, deadline, state, dispatch, NoCode, marker, None, None, 0, 0)
  }

  function GrantAsked(): Sql.GrantRequest {
    Sql.GrantRequest(SCOPE, TenantSubject, KEY, 7, {"m"}, None, true)
  }

  function CallAsked(deadline: Time): Sql.CallRequest {
    Sql.CallRequest(SCOPE, 0, 1, "m", deadline, true, true)
  }

  /** A state before anything was marked. */
  function At(o: Options, db: Db, control: map<Id, Dispatch>, threads: map<Tid, Pc>, next: Tid): State {
    State(o, 0, db, control, threads, next, map[], [], map[], {}, {}, {})
  }

  // ---------------------------------------------------------------- its steps

  lemma Discovers(o: Options)
    ensures Init(At(o, Db(map[], map[], map[], map[]), map[], map[], 0))
    ensures Next(At(o, Db(map[], map[], map[], map[]), map[], map[], 0), SManage(Discover(0, 0, 7, {"m"}, 1)),
                 At(o, Catalogued(ReviewPending, map[]), map[], map[], 0))
  {
    var db := Db(map[], map[], map[], map[]);
    assert Sql.Discover(db, 0, 0, 7, {"m"}, 1) == Catalogued(ReviewPending, map[]);
  }

  lemma Reviews(o: Options)
    ensures Next(At(o, Catalogued(ReviewPending, map[]), map[], map[], 0), SManage(Review(KEY, 0, 2, 7, true)),
                 At(o, Catalogued(Approved, map[]), map[], map[], 0))
  {
    assert Sql.Review(Catalogued(ReviewPending, map[]), KEY, 0, 2, 7, true) == Catalogued(Approved, map[]);
  }

  lemma Grants(o: Options)
    ensures Next(At(o, Catalogued(Approved, map[]), map[], map[], 0), SManage(CreateGrant(0, GrantAsked())),
                 At(o, Catalogued(Approved, map[0 := Granted(Pending, "")]), map[], map[], 0))
  {
    var db, db' := Catalogued(Approved, map[]), Catalogued(Approved, map[0 := Granted(Pending, "")]);
    assert Sql.CreateGrant(db, 0, GrantAsked(), 0) == db';
  }

  lemma StartsRegistering(o: Options)
    ensures var db := Catalogued(Approved, map[0 := Granted(Pending, "")]);
      Next(At(o, db, map[], map[], 0), SStartRegister(0), At(o, db, map[], map[0 := Registering(0)], 1))
  {
  }

  lemma AnswersRegistration(o: Options)
    ensures var db := Catalogued(Approved, map[0 := Granted(Pending, "")]);
      Next(At(o, db, map[], map[0 := Registering(0)], 1), SAnswerRegister(0, Sql.Receipt("r")),
           At(o, db, map[], map[0 := Registered(0, Sql.Receipt("r"))], 1))
  {
    assert map[0 := Registering(0)][0 := Registered(0, Sql.Receipt("r"))] == map[0 := Registered(0, Sql.Receipt("r"))];
  }

  lemma Activates(o: Options)
    ensures var db, db' := Catalogued(Approved, map[0 := Granted(Pending, "")]), Catalogued(Approved,
        map[0 := Granted(Active, "r")]);
      Next(At(o, db, map[], map[0 := Registered(0, Sql.Receipt("r"))], 1), SCommitRegister(0, Answered),
           At(o, db', map[], map[], 1))
  {
    var db, db' := Catalogued(Approved, map[0 := Granted(Pending, "")]), Catalogued(Approved,
        map[0 := Granted(Active, "r")]);
    assert Sql.RegisterGrant(db, 0, Sql.Receipt("r")) == db';
    assert map[0 := Registered(0, Sql.Receipt("r"))] - {0} == map[];
  }

  lemma StartsCreating(o: Options, deadline: Time)
    ensures var db := Catalogued(Approved, map[0 := Granted(Active, "r")]);
      Next(At(o, db, map[], map[], 1), SStartCreate(0, CallAsked(deadline)),
           At(o, db, map[], map[1 := Creating(0, CallAsked(deadline), 0)], 2))
  {
  }

  lemma Creates(o: Options, deadline: Time)
    ensures var db := Catalogued(Approved, map[0 := Granted(Active, "r")]);
      Next(At(o, db, map[], map[1 := Creating(0, CallAsked(deadline), 0)], 2), SCommitCreate(1, Answered),
           At(o, Called(Row(Accepted, None, None, deadline)), map[], map[1 := Loading(0)], 2))
  {
    var db, req := Catalogued(Approved, map[0 := Granted(Active, "r")]), CallAsked(deadline);
    assert Sql.CreateCall(db, 0, req, 0, 0) == Called(Row(Accepted, None, None, deadline));
    assert map[1 := Creating(0, req, 0)][1 := Loading(0)] == map[1 := Loading(0)];
  }

  lemma Loads(o: Options, deadline: Time)
    ensures var row := Row(Accepted, None, None, deadline);
      Next(At(o, Called(row), map[], map[1 := Loading(0)], 2), SLoad(1),
           At(o, Called(row), map[], map[1 := Admitting(0, row)], 2))
  {
    var row := Row(Accepted, None, None, deadline);
    assert map[1 := Loading(0)][1 := Admitting(0, row)] == map[1 := Admitting(0, row)];
  }

  /** Control's record of the one permission. */
  function Permission(): map<Id, Dispatch> {
    map[0 := Dispatch(5, Some(1))]
  }

  lemma Admits(o: Options, deadline: Time)
    ensures var row := Row(Accepted, None, None, deadline);
      Next(At(o, Called(row), map[], map[1 := Admitting(0, row)], 2), SAdmit(1, 5, Permitted),
           At(o, Called(row), Permission(), map[1 := Recording(0, row, 5, Permitted)], 2))
  {
    var row := Row(Accepted, None, None, deadline);
    assert map[1 := Admitting(0, row)][1 := Recording(0, row, 5, Permitted)] == map[1 := Recording(0, row, 5,
        Permitted)];
  }

  lemma RecordsAdmission(o: Options, deadline: Time)
    ensures var row, row' := Row(Accepted, None, None, deadline), Row(Admitted, Some(5), None, deadline);
      Next(At(o, Called(row), Permission(), map[1 := Recording(0, row, 5, Permitted)], 2),
           SRecordAdmission(1, Answered),
           At(o, Called(row'), Permission(), map[1 := Qualifying(0, row')], 2))
  {
    var row, row' := Row(Accepted, None, None, deadline), Row(Admitted, Some(5), None, deadline);
    assert Sql.SetAdmission(Called(row).calls, 0, Admitted, 5, NoCode, 0).calls == Called(row').calls;
    assert map[1 := Recording(0, row, 5, Permitted)][1 := Qualifying(0, row')] == map[1 := Qualifying(0, row')];
  }

  lemma StartsSend(o: Options, deadline: Time)
    requires o.sendTimeout <= deadline
    ensures var row := Row(Admitted, Some(5), None, deadline);
      Next(At(o, Called(row), Permission(), map[1 := Qualifying(0, row)], 2), SStartSend(1, true),
           At(o, Called(row), Permission(), map[1 := Opening(0, row, o.sendTimeout)], 2))
  {
    var row := Row(Admitted, Some(5), None, deadline);
    assert map[1 := Qualifying(0, row)][1 := Opening(0, row, o.sendTimeout)] == map[1 := Opening(0, row,
        o.sendTimeout)];
  }

  lemma Opens(o: Options, deadline: Time)
    requires o.sendTimeout > 0
    ensures var row := Row(Admitted, Some(5), None, deadline);
      Next(At(o, Called(row), Permission(), map[1 := Opening(0, row, o.sendTimeout)], 2), SOpen(1, None),
           At(o, Called(row), Permission(), map[1 := Marking(0, row, o.sendTimeout)], 2))
  {
    var row := Row(Admitted, Some(5), None, deadline);
    assert map[1 := Opening(0, row, o.sendTimeout)][1 := Marking(0, row, o.sendTimeout)] == map[1 := Marking(0, row,
        o.sendTimeout)];
  }

  /** The state in which the marker is committed and the call is about to be sent. */
  function Marked(o: Options): State {
    var db := Called(Row(Sent, Some(5), Some(0), o.sendTimeout));
    At(o, db, Permission(), map[1 := Sending(0, o.sendTimeout)], 2).(marks := map[0 := Marker(1, o.sendTimeout)])
  }

  lemma Marks(o: Options)
    ensures var row := Row(Admitted, Some(5), None, o.sendTimeout);
      Next(At(o, Called(row), Permission(), map[1 := Marking(0, row, o.sendTimeout)], 2), SMark(1, Answered), Marked(o))
  {
    var row, row' := Row(Admitted, Some(5), None, o.sendTimeout), Row(Sent, Some(5), Some(0), o.sendTimeout);
    assert Sql.MarkCall(Called(row), 0, row, 0).calls == Called(row').calls;
    assert map[1 := Marking(0, row, o.sendTimeout)][1 := Sending(0, o.sendTimeout)] == map[1 := Sending(0,
        o.sendTimeout)];
  }

  // ---------------------------------------------------------------- the runs

  lemma Extended(r: Run, step: Step, s: State) returns (r': Run)
    requires ValidRun(r) && Next(r.states[|r.steps|], step, s)
    ensures ValidRun(r') && r'.steps == r.steps + [step] && r'.states == r.states + [s]
    ensures r'.states[|r'.steps|] == s && r'.states[0] == r.states[0]
  {
    hide Next, Init;
    r' := Run(r.states + [s], r.steps + [step]);
    forall i | 0 <= i < |r'.steps| ensures Next(r'.states[i], r'.steps[i], r'.states[i + 1]) {
      if i == |r.steps| { assert r'.states[i] == r.states[i]; }
    }
  }

  /** A revision is discovered and approved. */
  lemma ApprovedRun(o: Options) returns (r: Run)
    ensures ValidRun(r) && r.states[0].opts == o
    ensures r.states[|r.steps|] == At(o, Catalogued(Approved, map[]), map[], map[], 0)
  {
    hide Next, Init, Catalogued;
    Discovers(o);
    r := Run([At(o, Db(map[], map[], map[], map[]), map[], map[], 0)], []);
    r := Extended(r, SManage(Discover(0, 0, 7, {"m"}, 1)), At(o, Catalogued(ReviewPending, map[]), map[], map[], 0));
    Reviews(o);
    r := Extended(r, SManage(Review(KEY, 0, 2, 7, true)), At(o, Catalogued(Approved, map[]), map[], map[], 0));
  }

  /** A grant of it is created and registered. */
  lemma ActiveRun(o: Options) returns (r: Run)
    ensures ValidRun(r) && r.states[0].opts == o
    ensures r.states[|r.steps|] == At(o, Catalogued(Approved, map[0 := Granted(Active, "r")]), map[], map[], 1)
  {
    hide Next, Init, Catalogued, Granted, GrantAsked;
    var pending := Catalogued(Approved, map[0 := Granted(Pending, "")]);
    r := ApprovedRun(o);
    Grants(o);
    r := Extended(r, SManage(CreateGrant(0, GrantAsked())), At(o, pending, map[], map[], 0));
    StartsRegistering(o);
    r := Extended(r, SStartRegister(0), At(o, pending, map[], map[0 := Registering(0)], 1));
    AnswersRegistration(o);
    r := Extended(r, SAnswerRegister(0, Sql.Receipt("r")),
                  At(o, pending, map[], map[0 := Registered(0, Sql.Receipt("r"))], 1));
    Activates(o);
    r := Extended(r, SCommitRegister(0, Answered),
                  At(o, Catalogued(Approved, map[0 := Granted(Active, "r")]), map[], map[], 1));
  }

  /** A call is created under it and admitted with Control's permission. */
  lemma AdmittedRun(o: Options, deadline: Time) returns (r: Run)
    ensures ValidRun(r) && r.states[0].opts == o
    ensures var row := Row(Admitted, Some(5), None, deadline);
      r.states[|r.steps|] == At(o, Called(row), Permission(), map[1 := Qualifying(0, row)], 2)
  {
    hide Next, ValidRun, Catalogued, Granted, Called, Row, CallAsked;
    r := ActiveRun(o);
    var row, row' := Row(Accepted, None, None, deadline), Row(Admitted, Some(5), None, deadline);
    StartsCreating(o, deadline);
    r := Extended(r, SStartCreate(0, CallAsked(deadline)),
                  At(o, Catalogued(Approved, map[0 := Granted(Active, "r")]), map[],
                     map[1 := Creating(0, CallAsked(deadline), 0)], 2));
    Creates(o, deadline);
    r := Extended(r, SCommitCreate(1, Answered), At(o, Called(row), map[], map[1 := Loading(0)], 2));
    Loads(o, deadline);
    r := Extended(r, SLoad(1), At(o, Called(row), map[], map[1 := Admitting(0, row)], 2));
    Admits(o, deadline);
    r := Extended(r, SAdmit(1, 5, Permitted),
                  At(o, Called(row), Permission(), map[1 := Recording(0, row, 5, Permitted)], 2));
    RecordsAdmission(o, deadline);
    r := Extended(r, SRecordAdmission(1, Answered),
                  At(o, Called(row'), Permission(), map[1 := Qualifying(0, row')], 2));
  }

  /** Its marker is committed. */
  lemma MarkedRun(o: Options) returns (r: Run)
    requires o.sendTimeout > 0
    ensures ValidRun(r) && r.states[0].opts == o && r.states[|r.steps|] == Marked(o)
  {
    hide Next, ValidRun, Called, Row, Marked, Permission;
    r := AdmittedRun(o, o.sendTimeout);
    var row := Row(Admitted, Some(5), None, o.sendTimeout);
    StartsSend(o, o.sendTimeout);
    r := Extended(r, SStartSend(1, true),
                  At(o, Called(row), Permission(), map[1 := Opening(0, row, o.sendTimeout)], 2));
    Opens(o, o.sendTimeout);
    r := Extended(r, SOpen(1, None), At(o, Called(row), Permission(), map[1 := Marking(0, row, o.sendTimeout)], 2));
    Marks(o);
    r := Extended(r, SMark(1, Answered), Marked(o));
  }

  // ---------------------------------------------------------------- two reports that contradict each other

  lemma SendsWithoutOutcome(o: Options) returns (s': State)
    ensures Next(Marked(o), SSend(1, NoOutcome(OutcomeUnknown)), s')
    ensures 1 in s'.threads && s'.threads[1] == Concluding(0, Unknown, OutcomeUnknown) && s'.now == 0
    ensures s'.db == Called(Row(Sent, Some(5), Some(0), o.sendTimeout))
  {
    var s := Marked(o);
    var sent := SendEvent(0, 1, NoOutcome(OutcomeUnknown));
    s' := Goto(s.(sends := [sent]), 1, Concluding(0, Unknown, OutcomeUnknown));
    assert s.sends + [sent] == [sent];
  }

  lemma ConcludesUnknown(s: State, deadline: Time) returns (s': State)
    requires 1 in s.threads && s.threads[1] == Concluding(0, Unknown, OutcomeUnknown)
    requires s.db == Called(Row(Sent, Some(5), Some(0), deadline))
    ensures Next(s, SConclude(1, LostAfter), s')
    ensures 0 in s'.db.calls && s'.db.calls[0].state == Unknown && s'.db.calls[0].observedAt.None?
  {
    var u := Sql.SetOutcome(s.db.calls, 0, Unknown, OutcomeUnknown, None, Sent, s.now);
    s' := Stop(Leave(s, 1, 0, u), 1);
    assert Left(s, s', 1, 0, u, LostAfter);
  }

  /** A run from empty tables to an UNKNOWN call no one has observed. */
  lemma UnknownRun(o: Options) returns (r: Run)
    requires o.sendTimeout > 0
    ensures ValidRun(r) && r.states[0].opts == o
    ensures var db := r.states[|r.steps|].db;
      0 in db.calls && db.calls[0].state == Unknown && db.calls[0].observedAt.None?
  {
    hide Next, ValidRun, Called, Row, Marked;
    r := MarkedRun(o);
    var s1 := SendsWithoutOutcome(o);
    r := Extended(r, SSend(1, NoOutcome(OutcomeUnknown)), s1);
    var s2 := ConcludesUnknown(s1, o.sendTimeout);
    r := Extended(r, SConclude(1, LostAfter), s2);
  }

  /** A run continued along a path. */
  lemma Continued(r: Run, states: seq<State>, steps: seq<Step>) returns (r': Run)
    requires ValidRun(r) && Path(states, steps) && states[0] == r.states[|r.steps|]
    ensures ValidRun(r') && r'.states[0] == r.states[0] && |r'.steps| == |r.steps| + |steps|
    ensures r'.states[|r'.steps|] == states[|steps|]
    ensures |steps| > 0 ==> r'.states[|r.steps|] == states[0] && r'.steps[|r.steps|] == steps[0]
  {
    hide Next, Init;
    assert Path(r.states, r.steps);
    JoinPaths(r.states, r.steps, states, steps);
    r' := Run(r.states + states[1..], r.steps + steps);
  }

  /** Under every configuration with a positive send timeout there is a run from empty tables in which the operator
      path reports one (dispatch, sequence) twice with different outcomes. */
  lemma OperatorContradicts(o: Options) returns (r: Run, f: Filed, f': Filed)
    requires o.sendTimeout > 0
    ensures ValidRun(r) && r.states[0].opts == o
    ensures f in r.states[|r.steps|].reports && f' in r.states[|r.steps|].reports
    ensures f.report.dispatch == f'.report.dispatch && f.report.sequence == f'.report.sequence
    ensures f.report.outcome == OutUnknown && f'.report.outcome == OutSucceeded
  {
    hide Next, ValidRun, Path, RiskyOperator;
    r := UnknownRun(o);
    RunLength(r);
    Preservation.RunInv(r, |r.steps|);
    var states, steps;
    states, steps, f, f' := OperatorCanContradict(r.states[|r.steps|], 0);
    r := Continued(r, states, steps);
  }

  lemma RunLength(r: Run)
    requires ValidRun(r)
    ensures |r.states| == |r.steps| + 1
  {
  }

  // ---------------------------------------------------------------- UNKNOWN inside the send bound

  /** A reconciler or an operator declares the call UNKNOWN in this step. */
  ghost predicate Declares(r: Run, i: nat, c: Id)
    requires |r.states| == |r.steps| + 1
  {
    && i < |r.steps| && r.steps[i].SAbandon?
    && c in r.states[i].db.calls && r.states[i].db.calls[c].state == Sent
    && c in r.states[i + 1].db.calls && r.states[i + 1].db.calls[c].state == Unknown
  }

  /** The instant at which the marker of the witness is older than the reconcile age. */
  function Patience(o: Options): nat {
    if o.reconcileAge < 0 then 0 else o.reconcileAge + 1
  }

  lemma Waits(o: Options)
    ensures Next(Marked(o), STick(Patience(o)), Marked(o).(now := Patience(o)))
  {
  }

  lemma StartsAbandoning(o: Options)
    requires o.reconcileAge < o.sendTimeout
    ensures var s := Marked(o).(now := Patience(o)); Next(s, SStartReconcile(0, false), Spawn(s, Abandoning(0)))
  {
    var s := Marked(o).(now := Patience(o));
    assert Eligible(s.db.calls[0], s.now, o.reconcileAge, SentAge(o));
  }

  lemma AbandonsEarly(o: Options) returns (s': State)
    requires o.reconcileAge < o.sendTimeout
    ensures Next(Spawn(Marked(o).(now := Patience(o)), Abandoning(0)), SAbandon(2, LostAfter), s')
    ensures 0 in s'.db.calls && s'.db.calls[0].state == Unknown
  {
    var s := Spawn(Marked(o).(now := Patience(o)), Abandoning(0));
    var u := Sql.SetAbandoned(s.db.calls, 0, OutcomeUnknown, SentAge(o), s.now);
    s' := Stop(Leave(s, 2, 0, u), 2);
    assert Left(s, s', 2, 0, u, LostAfter);
  }

  lemma MarkedShape(o: Options, now: Time)
    ensures var s := Spawn(Marked(o).(now := now), Abandoning(0));
      && s.now == now && 0 in s.db.calls && s.db.calls[0].state == Sent && 0 in s.marks
          && s.marks[0].bound == o.sendTimeout
      && 1 in s.threads && s.threads[1] == Sending(0, o.sendTimeout)
  {
  }

  /** With a reconcile age below the send timeout, a run from empty tables declares a call UNKNOWN while the send
      context of its sender, which still waits for the reply, has not expired. */
  lemma EarlyUnknown(o: Options) returns (r: Run, i: nat)
    requires o.sendTimeout > 0 && o.reconcileAge < o.sendTimeout
    ensures ValidRun(r) && r.states[0].opts == o && Declares(r, i, 0)
    ensures var s := r.states[i]; 0 in s.marks && s.marks[0].bound >= s.now
  {
    hide Next, ValidRun, Marked;
    r := MarkedRun(o);
    Waits(o);
    r := Extended(r, STick(Patience(o)), Marked(o).(now := Patience(o)));
    StartsAbandoning(o);
    var s1 := Spawn(Marked(o).(now := Patience(o)), Abandoning(0));
    r := Extended(r, SStartReconcile(0, false), s1);
    i := |r.steps|;
    var s2 := AbandonsEarly(o);
    r := Extended(r, SAbandon(2, LostAfter), s2);
    MarkedShape(o, Patience(o));
    RunLength(r);
  }

  /** Every step keeps the configuration. */
  lemma {:induction false} SameOptions(r: Run, i: nat)
    requires ValidRun(r) && i < |r.states|
    ensures r.states[i].opts == r.states[0].opts
  {
    hide Next, Init, Invariant.Inv, Invariant.CallsEvolve, Invariant.GrantsEvolve, Invariant.MarksEvolve,
         Invariant.HistoryEvolves;
    if i > 0 {
      SameOptions(r, i - 1);
      Theorems.RunStep(r, i - 1);
    }
  }

  /** Over all runs of a configuration with a positive send timeout: no reconciler and no operator declares a call
      UNKNOWN before the send context of its marker has expired, if and only if the reconcile age is at least the send
      timeout. */
  lemma SendBoundOverRuns(o: Options)
    requires o.sendTimeout > 0
    ensures (forall r: Run, i: nat, c: Id | ValidRun(r) && r.states[0].opts == o && Declares(r, i, c) ::
               c in r.states[i].marks && r.states[i].marks[c].bound < r.states[i].now)
        <==> o.reconcileAge >= o.sendTimeout
  {
    hide Next, Init;
    if o.reconcileAge >= o.sendTimeout {
      forall r: Run, i: nat, c: Id | ValidRun(r) && r.states[0].opts == o && Declares(r, i, c)
        ensures c in r.states[i].marks && r.states[i].marks[c].bound < r.states[i].now
      {
        SameOptions(r, i);
        NoEarlyUnknown(r, i, c);
      }
    } else {
      var r, i := EarlyUnknown(o);
      assert Declares(r, i, 0);
    }
  }
}
