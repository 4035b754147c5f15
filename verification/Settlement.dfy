/** Who may change a call whose outcome is UNKNOWN. */
module Settlement {
  import opened Basics
  import opened Rows
  import opened Protocol
  import Sql

  /** The columns that recording an observation does not write. */
  predicate SameOutcome(a: Call, b: Call) {
    b == a.(observedAt := b.observedAt, observations := b.observations, updatedAt := b.updatedAt)
  }

  /** The step settles the call from Control's record. */
  predicate Settles(s: State, step: Step, c: Id) {
    step.SSettle? && step.t in s.threads && s.threads[step.t].Settling? && s.threads[step.t].call == c
  }

  /** The steps that write a table. */
  predicate Writes(step: Step) {
    || step.SManage? || step.SCommitRegister? || step.SCommitBarrier? || step.SCommitCreate? || step.SRecordAdmission?
        || step.SMark?
    || step.SConclude? || step.SCancel? || step.SAbandon? || step.SShutDown? || step.SAcknowledge? || step.SSettle?
  }

  lemma QuietBefore(s: State, step: Step, s': State)
    requires Next(s, step, s') && Early(step) && !Writes(step)
    ensures s'.db == s.db
  {
    hide Manage, CommitRegister, CommitBarrier, CommitCreate, RecordAdmission, FreshDispatch, Sql.NoOpenCall;
  }

  lemma QuietAfter(s: State, step: Step, s': State)
    requires Next(s, step, s') && !Early(step) && !Writes(step)
    ensures s'.db == s.db
  {
    hide ReportOf, Conclude, Cancel, Abandon, ShutDown, Mark, Acknowledge, Settle, StartReconcile, AskControl,
         StartOperator;
    match step
    case SStartReconcile(c, due) => ReconcileReads(s, s', c, due);
    case SStartOperator(c) => OperatorReads(s, s', c);
    case SAskControl(t, view) => AskReads(s, s', t, view);
    case _ =>
  }

  lemma ReconcileReads(s: State, s': State, c: Id, due: bool)
    requires StartReconcile(s, s', c, due)
    ensures s'.db == s.db
  {
    hide Eligible, SentAge;
  }

  lemma OperatorReads(s: State, s': State, c: Id)
    requires StartOperator(s, s', c)
    ensures s'.db == s.db
  {
  }

  lemma AskReads(s: State, s': State, t: Tid, view: DispatchView)
    requires AskControl(s, s', t, view)
    ensures s'.db == s.db
  {
    hide OutcomeName;
  }

  lemma EarlyWritesLeaveUnknown(s: State, step: Step, s': State, c: Id)
    requires Next(s, step, s') && Writes(step) && Early(step) && c in s.db.calls && s.db.calls[c].state == Unknown
    ensures c in s'.db.calls && SameOutcome(s.db.calls[c], s'.db.calls[c])
  {
    hide Manage, CommitRegister, CommitBarrier, CommitCreate, RecordAdmission, Mark, Conclude, Cancel, Abandon,
         ShutDown, Acknowledge,
         Tick, Crash, ControlRecords, StartRegister, AnswerRegister, StartBarrier, AnswerBarrier, CountOpen,
         StartCreate, Load, Admit,
         StartSend, Open, Send, StartReconcile, StartOperator, StartShutdown, Reload, Observe, AskControl, Settle;
    if step.SManage? { ManagedCalls(s, s', step.m); }
    else if step.SCommitRegister? { RegisteredCalls(s, s', step.t, step.wire); }
    else if step.SCommitBarrier? { AdvancedCalls(s, s', step.t, step.wire); }
    else if step.SCommitCreate? { CreatedCalls(s, s', step.t, step.wire, c); }
    else { AdmittedCalls(s, s', step.t, step.wire, c); }
  }

  lemma LateWritesLeaveUnknown(s: State, step: Step, s': State, c: Id)
    requires Next(s, step, s') && Writes(step) && !Early(step) && !Settles(s, step, c) && c in s.db.calls
        && s.db.calls[c].state == Unknown
    ensures c in s'.db.calls && SameOutcome(s.db.calls[c], s'.db.calls[c])
  {
    hide Manage, CommitRegister, CommitBarrier, CommitCreate, RecordAdmission, Mark, Conclude, Cancel, Abandon,
         ShutDown, Acknowledge,
         Tick, Crash, ControlRecords, StartRegister, AnswerRegister, StartBarrier, AnswerBarrier, CountOpen,
         StartCreate, Load, Admit,
         StartSend, Open, Send, StartReconcile, StartOperator, StartShutdown, Reload, Observe, AskControl, Settle;
    match step
    case SMark(t, wire) => MarkedCalls(s, s', t, wire, c);
    case SConclude(t, wire) => ConcludedCalls(s, s', t, wire, c);
    case SCancel(t, wire) => CanceledCalls(s, s', t, wire, c);
    case SAbandon(t, wire) => AbandonedCalls(s, s', t, wire, c);
    case SShutDown(t, wire) => StoppedCalls(s, s', t, wire, c);
    case SAcknowledge(t, wire) => AcknowledgedCalls(s, s', t, wire, c);
    case SSettle(t, wire) => SettledOther(s, s', t, wire, c);
    case _ =>
  }

  lemma ManagedCalls(s: State, s': State, m: Management)
    requires Manage(s, s', m)
    ensures s'.db.calls == s.db.calls
  {
    assert Managed(s.db, m, s.now).calls == s.db.calls;
  }

  lemma RegisteredCalls(s: State, s': State, t: Tid, wire: Wire)
    requires CommitRegister(s, s', t, wire)
    ensures s'.db.calls == s.db.calls
  {
    assert Sql.RegisterGrant(s.db, s.threads[t].grant, s.threads[t].answer).calls == s.db.calls;
  }

  lemma AdvancedCalls(s: State, s': State, t: Tid, wire: Wire)
    requires CommitBarrier(s, s', t, wire)
    ensures s'.db.calls == s.db.calls
  {
    var pc := s.threads[t];
    assert Sql.AdvanceGrant(s.db, pc.grant, pc.barrier, pc.noneOpen, s.now).calls == s.db.calls;
  }

  lemma CreatedCalls(s: State, s': State, t: Tid, wire: Wire, c: Id)
    requires CommitCreate(s, s', t, wire) && c in s.db.calls
    ensures c in s'.db.calls && s'.db.calls[c] == s.db.calls[c]
  {
    hide Sql.CreateAdmits;
    var pc := s.threads[t];
    var db := Sql.CreateCall(s.db, pc.call, pc.req, pc.at, s.now);
    assert c in db.calls && db.calls[c] == s.db.calls[c];
    hide Sql.CreateCall;
  }

  lemma AdmittedCalls(s: State, s': State, t: Tid, wire: Wire, c: Id)
    requires RecordAdmission(s, s', t, wire) && c in s.db.calls && s.db.calls[c].state == Unknown
    ensures c in s'.db.calls && s'.db.calls[c] == s.db.calls[c]
  {
    var Recording(id, row, d, verdict) := s.threads[t];
    var u := Sql.SetAdmission(s.db.calls, id, if verdict.Refusal? then Denied else Admitted, d,
                              if verdict.Refusal? then verdict.code else NoCode, s.now);
    assert c in u.calls && u.calls[c] == s.db.calls[c];
    hide Sql.SetAdmission;
    var s1 := if wire == LostBefore then s else WithCalls(s, u.calls);
    assert s'.db == s1.db;
  }

  /** A guarded update of another state leaves the row alone. */
  lemma LeftUnknown(s: State, s': State, t: Tid, id: Id, u: Sql.CallUpdate, wire: Wire, c: Id)
    requires Left(s, s', t, id, u, wire) && c in s.db.calls && c in u.calls && u.calls[c] == s.db.calls[c]
    ensures c in s'.db.calls && s'.db.calls[c] == s.db.calls[c]
  {
    hide ReportOf;
    var s1 := if wire == LostBefore then s else Leave(s, t, id, u);
    assert s1.db.calls == if wire == LostBefore then s.db.calls else u.calls;
    hide Leave;
    assert s'.db == s1.db;
  }

  lemma ConcludedCalls(s: State, s': State, t: Tid, wire: Wire, c: Id)
    requires Conclude(s, s', t, wire) && c in s.db.calls && s.db.calls[c].state == Unknown
    ensures c in s'.db.calls && s'.db.calls[c] == s.db.calls[c]
  {
    hide Left;
    var Concluding(id, state, code) := s.threads[t];
    LeftUnknown(s, s', t, id, Sql.SetOutcome(s.db.calls, id, state, code, if state == Unknown then None else Some(1),
                                             Sent, s.now), wire, c);
  }

  lemma CanceledCalls(s: State, s': State, t: Tid, wire: Wire, c: Id)
    requires Cancel(s, s', t, wire) && c in s.db.calls && s.db.calls[c].state == Unknown
    ensures c in s'.db.calls && s'.db.calls[c] == s.db.calls[c]
  {
    hide Left;
    var Canceling(id, code) := s.threads[t];
    LeftUnknown(s, s', t, id, Sql.SetOutcome(s.db.calls, id, Canceled, code, Some(0), Admitted, s.now), wire, c);
  }

  lemma AbandonedCalls(s: State, s': State, t: Tid, wire: Wire, c: Id)
    requires Abandon(s, s', t, wire) && c in s.db.calls && s.db.calls[c].state == Unknown
    ensures c in s'.db.calls && s'.db.calls[c] == s.db.calls[c]
  {
    hide Left;
    var id := s.threads[t].call;
    LeftUnknown(s, s', t, id, Sql.SetAbandoned(s.db.calls, id, OutcomeUnknown, SentAge(s.opts), s.now), wire, c);
  }

  lemma StoppedCalls(s: State, s': State, t: Tid, wire: Wire, c: Id)
    requires ShutDown(s, s', t, wire) && c in s.db.calls && s.db.calls[c].state == Unknown
    ensures c in s'.db.calls && s'.db.calls[c] == s.db.calls[c]
  {
    hide Left;
    var id := s.threads[t].call;
    LeftUnknown(s, s', t, id, Sql.SetOutcome(s.db.calls, id, Unknown, OutcomeUnknown, None, Sent, s.now), wire, c);
  }

  lemma MarkedCalls(s: State, s': State, t: Tid, wire: Wire, c: Id)
    requires Mark(s, s', t, wire) && c in s.db.calls && s.db.calls[c].state == Unknown
    ensures c in s'.db.calls && s'.db.calls[c] == s.db.calls[c]
  {
  }

  lemma AcknowledgedCalls(s: State, s': State, t: Tid, wire: Wire, c: Id)
    requires Acknowledge(s, s', t, wire) && c in s.db.calls
    ensures c in s'.db.calls && SameOutcome(s.db.calls[c], s'.db.calls[c])
  {
    var Acknowledging(id, row, operator) := s.threads[t];
    ObservedKeeps(s.db.calls, id, row.observations, s.now, c);
    hide Sql.SetObserved;
    var s1 := if wire == LostBefore then s
      else WithCalls(s, Sql.SetObserved(s.db.calls, id, row.observations, s.now).calls);
    assert s'.db == s1.db;
  }

  lemma ObservedKeeps(calls: map<Id, Call>, id: Id, sequence: nat, now: Time, c: Id)
    requires c in calls
    ensures var u := Sql.SetObserved(calls, id, sequence, now).calls; c in u && SameOutcome(calls[c], u[c])
  {
  }

  lemma SettledOther(s: State, s': State, t: Tid, wire: Wire, c: Id)
    requires Settle(s, s', t, wire) && c in s.db.calls && !Settles(s, SSettle(t, wire), c)
    ensures c in s'.db.calls && s'.db.calls[c] == s.db.calls[c]
  {
    var Settling(id, row, state, code) := s.threads[t];
    var u := Sql.SetOutcome(s.db.calls, id, state, code, None, Unknown, s.now);
    assert c in u.calls && u.calls[c] == s.db.calls[c];
    hide Sql.SetOutcome;
    assert s'.db.calls == s.db.calls || s'.db.calls == u.calls;
  }

  lemma StepKeepsUnknown(s: State, step: Step, s': State, c: Id)
    requires Next(s, step, s') && !Settles(s, step, c) && c in s.db.calls && s.db.calls[c].state == Unknown
    ensures c in s'.db.calls && SameOutcome(s.db.calls[c], s'.db.calls[c])
  {
    hide Next, Settles;
    if Early(step) {
      if Writes(step) { EarlyWritesLeaveUnknown(s, step, s', c); } else { QuietBefore(s, step, s'); }
    } else {
      if Writes(step) { LateWritesLeaveUnknown(s, step, s', c); } else { QuietAfter(s, step, s'); }
    }
  }

  /** As long as no step settles the call from Control's record, an UNKNOWN row keeps its state, code, usage, marker,
      dispatch and frozen columns over the whole run: no late sender, reconciler, stop or canceler overwrites it. */
  lemma {:induction false} UnknownLeavesOnlyToSettlement(r: Run, i: nat, j: nat, c: Id)
    requires ValidRun(r) && i <= j < |r.states| && c in r.states[i].db.calls && r.states[i].db.calls[c].state == Unknown
    requires forall k | i <= k < j :: !Settles(r.states[k], r.steps[k], c)
    ensures c in r.states[j].db.calls && SameOutcome(r.states[i].db.calls[c], r.states[j].db.calls[c])
    decreases j
  {
    hide Init, Next, Settles;
    if i < j {
      UnknownLeavesOnlyToSettlement(r, i, j - 1, c);
      StepKeepsUnknown(r.states[j - 1], r.steps[j - 1], r.states[j], c);
    }
  }
}
