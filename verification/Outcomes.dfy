/** What a thread was told, and what it then wrote: the admission, the cancellation and the settlement of a call. */
module Outcomes {
  import opened Basics
  import opened Rows
  import opened Protocol
  import opened Invariant
  import Preservation
  import Replies
  import Sql

  // ---------------------------------------------------------------- a thread waits for its own next step

  /** The thread whose step it is. */
  function Mover(step: Step): Option<Tid> {
    match step
    case STick(_) | SControlRecords(_, _) | SManage(_) | SStartRegister(_) | SStartBarrier(_) | SStartCreate(_, _)
       | SStartReconcile(_, _) | SStartOperator(_) | SStartShutdown(_) => None
    case _ => Some(step.t)
  }

  /** Only the mover's thread, or a new one, changes. */
  predicate Local(s: State, step: Step, s': State) {
    var x := if Mover(step).Some? then Mover(step).value else s.nextTid;
    && s.nextTid <= s'.nextTid
    && (|| s'.threads == s.threads || s'.threads == s.threads - {x}
        || (x in s'.threads && s'.threads == s.threads[x := s'.threads[x]]))
  }

  predicate GrantStep(step: Step) {
    || step.STick? || step.SCrash? || step.SControlRecords? || step.SManage? || step.SStartRegister?
    || step.SAnswerRegister? || step.SCommitRegister? || step.SStartBarrier? || step.SAnswerBarrier? || step.SCountOpen?
    || step.SCommitBarrier?
  }

  predicate LeavingStep(step: Step) {
    step.SConclude? || step.SCancel? || step.SAbandon? || step.SShutDown?
  }

  predicate StartingStep(step: Step) {
    step.SStartReconcile? || step.SStartOperator? || step.SStartShutdown?
  }

  predicate ReportingStep(step: Step) {
    step.SReload? || step.SObserve? || step.SAcknowledge? || step.SAskControl? || step.SSettle?
  }

  predicate AdmittingStep(step: Step) {
    step.SStartCreate? || step.SCommitCreate? || step.SLoad? || step.SAdmit? || step.SRecordAdmission?
  }

  lemma GrantStepIsLocal(s: State, step: Step, s': State)
    requires Next(s, step, s') && GrantStep(step)
    ensures Local(s, step, s')
  {
    hide Managed, Sql.RegisterGrant, Sql.AdvanceGrant, Sql.NoOpenCall, FreshDispatch;
  }

  lemma LeavingStepIsLocal(s: State, step: Step, s': State)
    requires Next(s, step, s') && LeavingStep(step)
    ensures Local(s, step, s')
  {
    hide Sql.SetOutcome, Sql.SetAbandoned, SentAge, Left;
    var u, wire :| Left(s, s', step.t, s.threads[step.t].call, u, wire);
    LeftIsLocal(s, s', step.t, s.threads[step.t].call, u, wire);
  }

  lemma LeftIsLocal(s: State, s': State, t: Tid, c: Id, u: Sql.CallUpdate, wire: Wire)
    requires Left(s, s', t, c, u, wire)
    ensures s.nextTid == s'.nextTid
    ensures s'.threads == s.threads - {t} || (t in s'.threads && s'.threads == s.threads[t := s'.threads[t]])
  {
    hide ReportOf;
    var s1 := if wire == LostBefore then s else Leave(s, t, c, u);
    assert s1.threads == s.threads && s1.nextTid == s.nextTid;
  }

  lemma ReloadIsLocal(s: State, s': State, t: Tid)
    requires Reload(s, s', t)
    ensures Local(s, SReload(t), s')
  {
  }

  lemma ObserveIsLocal(s: State, s': State, t: Tid, answered: bool)
    requires Observe(s, s', t, answered)
    ensures Local(s, SObserve(t, answered), s')
  {
    hide ReportOf;
  }

  lemma AcknowledgeIsLocal(s: State, s': State, t: Tid, wire: Wire)
    requires Acknowledge(s, s', t, wire)
    ensures Local(s, SAcknowledge(t, wire), s')
  {
    hide Sql.SetObserved;
  }

  lemma AskControlIsLocal(s: State, s': State, t: Tid, view: DispatchView)
    requires AskControl(s, s', t, view)
    ensures Local(s, SAskControl(t, view), s')
  {
    hide OutcomeName;
  }

  lemma SettleIsLocal(s: State, s': State, t: Tid, wire: Wire)
    requires Settle(s, s', t, wire)
    ensures Local(s, SSettle(t, wire), s')
  {
    hide Sql.SetOutcome;
  }

  lemma ReportingStepIsLocal(s: State, step: Step, s': State)
    requires Next(s, step, s') && ReportingStep(step)
    ensures Local(s, step, s')
  {
    hide Local, Reload, Observe, Acknowledge, AskControl, Settle;
    if step.SReload? { ReloadIsLocal(s, s', step.t); }
    else if step.SObserve? { ObserveIsLocal(s, s', step.t, step.answered); }
    else if step.SAcknowledge? { AcknowledgeIsLocal(s, s', step.t, step.wire); }
    else if step.SAskControl? { AskControlIsLocal(s, s', step.t, step.view); }
    else if step.SSettle? { SettleIsLocal(s, s', step.t, step.wire); }
  }

  lemma SpawnIsLocal(s: State, pc: Pc, step: Step)
    requires Mover(step).None?
    ensures Local(s, step, Spawn(s, pc))
  {
  }

  lemma StartReconcileIsLocal(s: State, s': State, call: Id, due: bool)
    requires StartReconcile(s, s', call, due)
    ensures Local(s, SStartReconcile(call, due), s')
  {
    hide Eligible, SentAge, Spawn;
    if s' != s {
      var pc :| s' == Spawn(s, pc);
      SpawnIsLocal(s, pc, SStartReconcile(call, due));
    }
  }

  lemma StartOperatorIsLocal(s: State, s': State, call: Id)
    requires StartOperator(s, s', call)
    ensures Local(s, SStartOperator(call), s')
  {
  }

  lemma StartShutdownIsLocal(s: State, s': State, call: Id)
    requires StartShutdown(s, s', call)
    ensures Local(s, SStartShutdown(call), s')
  {
  }

  lemma StartingStepIsLocal(s: State, step: Step, s': State)
    requires Next(s, step, s') && StartingStep(step)
    ensures Local(s, step, s')
  {
    hide Local, StartReconcile, StartOperator, StartShutdown;
    if step.SStartReconcile? { StartReconcileIsLocal(s, s', step.call, step.due); }
    else if step.SStartOperator? { StartOperatorIsLocal(s, s', step.call); }
    else if step.SStartShutdown? { StartShutdownIsLocal(s, s', step.call); }
  }

  lemma StartCreateIsLocal(s: State, s': State, call: Id, req: Sql.CallRequest)
    requires StartCreate(s, s', call, req)
    ensures Local(s, SStartCreate(call, req), s')
  {
  }

  lemma CommitCreateIsLocal(s: State, s': State, t: Tid, wire: Wire)
    requires CommitCreate(s, s', t, wire)
    ensures Local(s, SCommitCreate(t, wire), s')
  {
    hide Sql.CreateCall;
  }

  lemma LoadIsLocal(s: State, s': State, t: Tid)
    requires Load(s, s', t)
    ensures Local(s, SLoad(t), s')
  {
  }

  lemma AdmitIsLocal(s: State, s': State, t: Tid, dispatch: Id, verdict: Verdict)
    requires Admit(s, s', t, dispatch, verdict)
    ensures Local(s, SAdmit(t, dispatch, verdict), s')
  {
    hide FreshDispatch;
  }

  lemma RecordAdmissionIsLocal(s: State, s': State, t: Tid, wire: Wire)
    requires RecordAdmission(s, s', t, wire)
    ensures Local(s, SRecordAdmission(t, wire), s')
  {
    hide Sql.SetAdmission;
  }

  lemma AdmittingStepIsLocal(s: State, step: Step, s': State)
    requires Next(s, step, s') && AdmittingStep(step)
    ensures Local(s, step, s')
  {
    hide Local, StartCreate, CommitCreate, Load, Admit, RecordAdmission;
    if step.SStartCreate? { StartCreateIsLocal(s, s', step.call, step.req); }
    else if step.SCommitCreate? { CommitCreateIsLocal(s, s', step.t, step.wire); }
    else if step.SLoad? { LoadIsLocal(s, s', step.t); }
    else if step.SAdmit? { AdmitIsLocal(s, s', step.t, step.dispatch, step.verdict); }
    else if step.SRecordAdmission? { RecordAdmissionIsLocal(s, s', step.t, step.wire); }
  }

  lemma SendingStepIsLocal(s: State, step: Step, s': State)
    requires Next(s, step, s') && (step.SStartSend? || step.SOpen? || step.SMark? || step.SSend?)
    ensures Local(s, step, s')
  {
    hide Sql.MarkCall;
  }

  lemma StepIsLocal(s: State, step: Step, s': State)
    requires Next(s, step, s')
    ensures Local(s, step, s')
  {
    hide Next, Local;
    if GrantStep(step) { GrantStepIsLocal(s, step, s'); }
    else if LeavingStep(step) { LeavingStepIsLocal(s, step, s'); }
    else if ReportingStep(step) { ReportingStepIsLocal(s, step, s'); }
    else if StartingStep(step) { StartingStepIsLocal(s, step, s'); }
    else if AdmittingStep(step) { AdmittingStepIsLocal(s, step, s'); }
    else { SendingStepIsLocal(s, step, s'); }
  }

  /** Until a step of its own a thread stays where it is, or gone. */
  lemma {:induction false} ThreadWaits(r: Run, i: nat, j: nat, t: Tid)
    requires ValidRun(r) && i <= j < |r.states| && t < r.states[i].nextTid
    requires forall k | i <= k < j :: Mover(r.steps[k]) != Some(t)
    ensures t < r.states[j].nextTid && (t in r.states[j].threads <==> t in r.states[i].threads)
    ensures t in r.states[i].threads ==> r.states[j].threads[t] == r.states[i].threads[t]
    decreases j
  {
    hide Next, Init;
    if i < j {
      ThreadWaits(r, i, j - 1, t);
      StepIsLocal(r.states[j - 1], r.steps[j - 1], r.states[j]);
    }
  }

  /** A thread that makes a step was there. */
  lemma MoverIsKnown(r: Run, i: nat, t: Tid)
    requires ValidRun(r) && i < |r.states| && t in r.states[i].threads
    ensures t < r.states[i].nextTid
  {
    hide ValidRun, Inv;
    Preservation.RunInv(r, i);
    Preservation.Knows(r.states[i], t);
  }

  lemma StepKeepsNumbers(s: State, step: Step, s': State)
    requires Next(s, step, s')
    ensures s.nextTid <= s'.nextTid
  {
    hide Next;
    StepIsLocal(s, step, s');
  }

  // ---------------------------------------------------------------- the admission

  lemma AnsweredAdmission(s: State, s': State, t: Tid, d: Id, verdict: Verdict)
    requires Next(s, SAdmit(t, d, verdict), s')
    ensures t in s.threads && s.threads[t].Admitting? && t in s'.threads
    ensures s'.threads[t] == Recording(s.threads[t].call, s.threads[t].row, d, verdict)
  {
    hide FreshDispatch;
  }

  lemma RecordedAdmission(s: State, s': State, t: Tid, wire: Wire, c: Id)
    requires Next(s, SRecordAdmission(t, wire), s') && c in s.db.calls && s.db.calls[c].state == Accepted
    requires c in s'.db.calls && s'.db.calls[c].state != Accepted
    ensures t in s.threads && s.threads[t].Recording? && s.threads[t].call == c
    ensures var pc, row, row' := s.threads[t], s.db.calls[c], s'.db.calls[c];
      && row' == row.(state := row'.state, dispatch := Some(pc.dispatch), code := row'.code, updatedAt := s.now)
      && (if pc.verdict.Refusal? then row'.state == Denied && row'.code == pc.verdict.code
          else row'.state == Admitted && row'.code == NoCode)
  {
  }

  /** From Control's answer to the row: a refusal is recorded as denied with its code, anything else as admitted, each
      under the dispatch Control named. */
  lemma ControlDecidesTheAdmission(r: Run, i: nat, j: nat, t: Tid, d: Id, verdict: Verdict, c: Id)
    requires ValidRun(r) && i < j < |r.steps| && r.steps[i] == SAdmit(t, d, verdict)
    requires (forall k | i < k < j :: Mover(r.steps[k]) != Some(t)) && r.steps[j].SRecordAdmission? && r.steps[j].t == t
    requires c in r.states[j].db.calls && r.states[j].db.calls[c].state == Accepted
    requires c in r.states[j + 1].db.calls && r.states[j + 1].db.calls[c].state != Accepted
    ensures t in r.states[i].threads && r.states[i].threads[t].Admitting? && r.states[i].threads[t].call == c
    ensures var row := r.states[j + 1].db.calls[c];
      && row.dispatch == Some(d)
      && (match verdict
          case Refusal(code) => row.state == Denied && row.code == code
          case _ => row.state == Admitted && row.code == NoCode)
  {
    hide Next, Init;
    AnsweredAdmission(r.states[i], r.states[i + 1], t, d, verdict);
    MoverIsKnown(r, i + 1, t);
    ThreadWaits(r, i + 1, j, t);
    RecordedAdmission(r.states[j], r.states[j + 1], t, r.steps[j].wire, c);
  }

  // ---------------------------------------------------------------- the cancellation

  /** Why a thread cancels a call that was admitted: what it read was missing, it was refused a token or a session,
      its bound had elapsed, its grant was no longer executable, or another thread was given the permission. */
  lemma WhyCanceling(s: State, step: Step, s': State, t: Tid)
    requires Next(s, step, s') && t in s.threads && t in s'.threads && s'.threads[t].Canceling?
        && !s.threads[t].Canceling?
    requires Mover(step) == Some(t)
    ensures match step
      case SStartSend(_, readable) => !readable && s'.threads[t].code == GrantNotExecutable
      case SOpen(_, refusal) => s'.threads[t].code == (if refusal.Some? then refusal.value else SendNotAttempted)
      case SMark(_, _) => s'.threads[t].code == GrantNotExecutable
      case SRecordAdmission(_, _) => s.threads[t].verdict.NotPermitted? && s'.threads[t].code == SendNotAttempted
      case _ => false
  {
    hide ReportOf, Sql.SetOutcome, Sql.SetAbandoned, Sql.SetObserved, Sql.MarkCall, OutcomeName, Sql.RegisterGrant,
         Sql.AdvanceGrant, Sql.NoOpenCall, FreshDispatch, Sql.SetAdmission, Sql.CreateCall, Leave;
  }

  /** A canceled call records the reason and no usage; nothing else of it changes. */
  lemma CanceledRow(s: State, s': State, t: Tid, wire: Wire, c: Id)
    requires Next(s, SCancel(t, wire), s') && c in s.db.calls && s.db.calls[c].state == Admitted
    requires c in s'.db.calls && s'.db.calls[c].state != Admitted
    ensures t in s.threads && s.threads[t].Canceling? && s.threads[t].call == c
    ensures s'.db.calls[c]
         == s.db.calls[c].(state := Canceled, code := s.threads[t].code, usage := Some(0), updatedAt := s.now)
  {
    hide Left, Leave, ReportOf;
    var Canceling(id, code) := s.threads[t];
    Replies.LeftRow(s, s', t, id, Sql.SetOutcome(s.db.calls, id, Canceled, code, Some(0), Admitted, s.now), wire);
  }

  /** What is reported of a canceled or failed call. */
  lemma ReportedRow(row: Call)
    requires row.Reportable() && row.dispatch.Some?
    ensures ReportOf(row).dispatch == row.dispatch.value && ReportOf(row).sequence == row.observations
    ensures row.state == Succeeded ==> ReportOf(row).outcome == OutSucceeded
    ensures row.state == Failed ==> ReportOf(row).outcome == OutFailed
    ensures row.state == Canceled ==> ReportOf(row).outcome == OutCanceled
    ensures row.state == Unknown ==> ReportOf(row).outcome == OutUnknown && ReportOf(row).units == None
    ensures row.state != Unknown ==> ReportOf(row).units == Some(if row.usage.Some? then row.usage.value else 0)
  {
  }

  /** A recorded observation advances the sequence by one; it takes effect once for each sequence. */
  lemma ObservedRow(s: State, s': State, t: Tid, wire: Wire, c: Id)
    requires Next(s, SAcknowledge(t, wire), s') && c in s.db.calls && c in s'.db.calls
        && s'.db.calls[c] != s.db.calls[c]
    ensures t in s.threads && s.threads[t].Acknowledging? && s.threads[t].call == c
    ensures s.db.calls[c].observations == s.threads[t].row.observations
    ensures s'.db.calls[c]
         == s.db.calls[c].(observedAt := Some(s.now), observations := s.db.calls[c].observations + 1,
                           updatedAt := s.now)
  {
    var Acknowledging(id, row, operator) := s.threads[t];
    var u := Sql.SetObserved(s.db.calls, id, row.observations, s.now);
    var s1 := if wire == LostBefore then s else WithCalls(s, u.calls);
    assert s'.db == s1.db;
  }

  // ---------------------------------------------------------------- the settlement

  /** The row of an UNKNOWN call that Control's record settles. */
  predicate SettledAs(view: DispatchView, row: Call) {
    match view
    case ConfirmedNotSent => row.state == Failed && row.code == WasNotSent && row.usage == None
    case ObservedAs(OutSucceeded) => row.state == Succeeded && row.code == NoCode && row.usage == None
    case ObservedAs(OutFailed) => row.state == Failed && row.code == ResolvedAs("failed") && row.usage == None
    case ObservedAs(OutCanceled) => row.state == Failed && row.code == ResolvedAs("canceled") && row.usage == None
    case ObservedAs(OutUnknown) => row.state == Failed && row.code == ResolvedAs("unknown") && row.usage == None
    case StillUnknown => false
  }

  lemma AskedControl(s: State, s': State, t: Tid, view: DispatchView)
    requires Next(s, SAskControl(t, view), s')
    ensures t in s.threads && s.threads[t].Resolving?
    ensures view.StillUnknown? <==> t !in s'.threads
    ensures t in s'.threads ==> s'.threads[t].Settling? && s'.threads[t].call == s.threads[t].call
    ensures t in s'.threads ==>
      forall row: Call | row.state == s'.threads[t].state && row.code == s'.threads[t].code && row.usage == None ::
        SettledAs(view, row)
  {
  }

  lemma SettledRow(s: State, s': State, t: Tid, wire: Wire, c: Id)
    requires Next(s, SSettle(t, wire), s') && c in s.db.calls && s.db.calls[c].state == Unknown
    requires c in s'.db.calls && s'.db.calls[c].state != Unknown
    ensures t in s.threads && s.threads[t].Settling? && s.threads[t].call == c
    ensures s'.db.calls[c].state == s.threads[t].state && s'.db.calls[c].code == s.threads[t].code
    ensures s'.db.calls[c].usage == None
  {
  }

  /** From Control's record to the row: an UNKNOWN call is settled as that record says. */
  lemma ControlDecidesTheSettlement(r: Run, i: nat, j: nat, t: Tid, view: DispatchView, c: Id)
    requires ValidRun(r) && i < j < |r.steps| && r.steps[i] == SAskControl(t, view)
    requires (forall k | i < k < j :: Mover(r.steps[k]) != Some(t)) && r.steps[j].SSettle? && r.steps[j].t == t
    requires c in r.states[j].db.calls && r.states[j].db.calls[c].state == Unknown
    requires c in r.states[j + 1].db.calls && r.states[j + 1].db.calls[c].state != Unknown
    ensures t in r.states[i].threads && r.states[i].threads[t].Resolving? && r.states[i].threads[t].call == c
    ensures SettledAs(view, r.states[j + 1].db.calls[c])
  {
    hide Next, Init;
    AskedControl(r.states[i], r.states[i + 1], t, view);
    SettledRow(r.states[j], r.states[j + 1], t, r.steps[j].wire, c);
    MoverIsKnown(r, i, t);
    StepKeepsNumbers(r.states[i], r.steps[i], r.states[i + 1]);
    ThreadWaits(r, i + 1, j, t);
  }

  // ---------------------------------------------------------------- where each thread goes on

  /** The thread that was started. */
  ghost predicate Starts(s: State, s': State, pc: Pc) {
    s' == s.(threads := s.threads[s.nextTid := pc], nextTid := s.nextTid + 1)
  }

  /** The dispatch of a call asks for its admission while it is accepted, reports an outcome not observed yet, and
      else ends. */
  lemma LoadGoesOn(s: State, s': State, t: Tid)
    requires Next(s, SLoad(t), s')
    ensures t in s.threads && s.threads[t].Loading? && s.threads[t].call in s.db.calls
    ensures var c, row := s.threads[t].call, s.db.calls[s.threads[t].call];
      if row.state == Accepted then t in s'.threads && s'.threads[t] == Admitting(c, row)
      else if row.observedAt.None?
              && (row.state == Succeeded || row.state == Failed || row.state == Canceled || row.state == Unknown)
      then t in s'.threads && s'.threads[t] == Observing(c, row, false)
      else t !in s'.threads
  {
  }

  /** What the reconciler does with a listed call: it asks again for an admission, cancels what was never marked,
      declares UNKNOWN what was, reports, and asks Control about what was reported. */
  lemma ReconcilerGoesOn(s: State, s': State, c: Id, due: bool)
    requires Next(s, SStartReconcile(c, due), s')
    ensures c in s.db.calls
    ensures var row := s.db.calls[c];
      && (row.state == Accepted ==> Starts(s, s', Admitting(c, row)))
      && (row.state == Admitted ==> Starts(s, s', Canceling(c, SendNotAttempted)))
      && (row.state == Sent ==> Starts(s, s', Abandoning(c)))
      && (row.state == Unknown && row.observedAt.None? ==> Starts(s, s', Observing(c, row, false)))
      && (row.state == Unknown && row.observedAt.Some? && due ==> Starts(s, s', Resolving(c, row)))
      && (row.state == Unknown && row.observedAt.Some? && !due ==> s' == s)
      && (row.state == Succeeded || row.state == Failed || row.state == Canceled ==>
            Starts(s, s', Observing(c, row, false)))
  {
    hide Eligible, SentAge;
  }

  /** What the operator's run does: it leaves accepted and admitted calls alone, and asks Control about an UNKNOWN one
      whatever becomes of its own report. */
  lemma OperatorGoesOn(s: State, s': State, c: Id)
    requires Next(s, SStartOperator(c), s')
    ensures c in s.db.calls
    ensures var row := s.db.calls[c];
      && (row.state == Accepted || row.state == Admitted || row.state == Denied ==>
            s'.threads == s.threads && s'.db == s.db)
      && (row.state == Unknown ==> s.nextTid in s'.threads)
      && (row.state == Unknown && row.observedAt.None? ==> s'.threads[s.nextTid] == Observing(c, row, true))
      && (row.state == Unknown && row.observedAt.Some? ==> s'.threads[s.nextTid] == Resolving(c, row))
  {
  }

  /** A report is filed as the row read earlier says; answered, it is acknowledged, and unanswered only the operator
      goes on. */
  lemma ReportGoesOn(s: State, s': State, t: Tid, answered: bool)
    requires Next(s, SObserve(t, answered), s')
    ensures t in s.threads && s.threads[t].Observing?
    ensures var pc := s.threads[t];
      pc.row.Reportable() && pc.row.dispatch.Some? ==>
        && s'.reports == s.reports + {Filed(pc.call, ReportOf(pc.row))}
        && (answered ==> t in s'.threads && s'.threads[t] == Acknowledging(pc.call, pc.row, pc.operator))
        && (!answered ==> if pc.operator then t in s'.threads && s'.threads[t] == Resolving(pc.call, pc.row)
            else t !in s'.threads)
  {
    hide ReportOf;
  }

  // ---------------------------------------------------------------- UNKNOWN

  /** A call declared UNKNOWN by a reconciler or an operator, or by a stop, has no usage and says so. */
  lemma DeclaredUnknown(s: State, step: Step, s': State, c: Id)
    requires Next(s, step, s') && (step.SAbandon? || step.SShutDown?) && c in s.db.calls && c in s'.db.calls
    requires s'.db.calls[c] != s.db.calls[c]
    ensures s.db.calls[c].state == Sent
    ensures step.SAbandon? ==> s'.db.calls[c] == s.db.calls[c].(state := Unknown, code := OutcomeUnknown,
                                                                updatedAt := s.now)
    ensures step.SShutDown? ==>
              s'.db.calls[c] == s.db.calls[c].(state := Unknown, code := OutcomeUnknown, usage := None,
                                               updatedAt := s.now)
  {
    var id := s.threads[step.t].call;
    if step.SAbandon? {
      Replies.LeftRow(s, s', step.t, id, Sql.SetAbandoned(s.db.calls, id, OutcomeUnknown, SentAge(s.opts), s.now),
                      step.wire);
    } else {
      Replies.LeftRow(s, s', step.t, id, Sql.SetOutcome(s.db.calls, id, Unknown, OutcomeUnknown, None, Sent, s.now),
                      step.wire);
    }
  }
}
