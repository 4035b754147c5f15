/** The service as one transition system: any number of replicas, detached senders,
    reconciler passes, operator runs, shutdowns and management commands run as threads
    over the shared tables. A transaction is one step; everything a thread reads or asks
    outside a transaction is a step of its own, so it acts on what it read earlier.
    A thread may crash between any two steps. */
module Protocol {
  import opened Basics
  import opened Rows
  import Sql

  // ---------------------------------------------------------------- configuration

  datatype Options = Options(sendTimeout: Time, reconcileAge: Time)

  const FIVE_SECONDS: Time := 5_000_000_000

  /** sentAge: the marker age after which a marked call may be recorded UNKNOWN. */
  function SentAge(o: Options): Time {
    if o.sendTimeout + FIVE_SECONDS <= o.reconcileAge then o.sendTimeout + FIVE_SECONDS else o.reconcileAge
  }

  // ---------------------------------------------------------------- what crosses to Control

  datatype Outcome = OutSucceeded | OutFailed | OutCanceled | OutUnknown

  function OutcomeName(o: Outcome): string {
    match o
    case OutSucceeded => "succeeded"
    case OutFailed => "failed"
    case OutCanceled => "canceled"
    case OutUnknown => "unknown"
  }

  /** One ObserveTool request. */
  datatype Report = Report(dispatch: Id, sequence: nat, outcome: Outcome, units: Option<nat>)

  /** observe: what is reported of a row read earlier. */
  function ReportOf(c: Call): Report
    requires c.Reportable() && c.dispatch.Some?
  {
    var outcome :=
      match c.state
      case Succeeded => OutSucceeded
      case Failed => OutFailed
      case Canceled => OutCanceled
      case _ => OutUnknown;
    Report(c.dispatch.value, c.observations, outcome,
           if c.state == Unknown then None else if c.usage.None? then Some(0) else c.usage)
  }

  /** Control's record of a call's dispatch; `holder` is the thread that received
      dispatchAllowed=true, None when the dispatch was denied or the answer was lost. */
  datatype Dispatch = Dispatch(id: Id, holder: Option<Tid>)

  datatype Verdict = Permitted | Refusal(code: Code) | NotPermitted

  // ---------------------------------------------------------------- threads

  type Tid = nat

  /** Where a thread is, and what it read on the way. */
  datatype Pc =
    // Calls.Create, Calls.advance, Calls.admit
    | Creating(call: Id, req: Sql.CallRequest, at: Time)
    | Loading(call: Id)
    | Admitting(call: Id, row: Call)
    | Recording(call: Id, row: Call, dispatch: Id, verdict: Verdict)
    // Calls.send
    | Qualifying(call: Id, row: Call)
    | Opening(call: Id, row: Call, bound: Time)
    | Marking(call: Id, row: Call, bound: Time)
    | Sending(call: Id, bound: Time)
    | Concluding(call: Id, state: CallState, code: Code)
    // Calls.cancel, Calls.reconcileOne, Calls.Shutdown
    | Canceling(call: Id, code: Code)
    | Abandoning(call: Id)
    | Stopping(call: Id)
    // Calls.observe and Calls.resolve; `operator` continues with resolve after the report
    | Reloading(call: Id)
    | Observing(call: Id, row: Call, operator: bool)
    | Acknowledging(call: Id, row: Call, operator: bool)
    | Resolving(call: Id, row: Call)
    | Settling(call: Id, row: Call, state: CallState, code: Code)
    // Grants.register, Grants.advance
    | Registering(grant: Id)
    | Registered(grant: Id, answer: Sql.Registration)
    | Fencing(grant: Id, revision: nat)
    | Counting(grant: Id, revision: nat, barrier: Sql.Barrier)
    | Finalizing(grant: Id, revision: nat, barrier: Sql.Barrier, noneOpen: bool)

  /** How a write ended for the thread that issued it. */
  datatype Wire = Answered | LostBefore | LostAfter

  // ---------------------------------------------------------------- states

  /** A committed send marker: the thread whose update set it, and when the send context of that thread ends. */
  datatype Marker = Marker(sender: Tid, bound: Time)

  /** A call of Session.Send and what it returned. */
  datatype SendEvent = SendEvent(call: Id, sender: Tid, reply: Reply)
  datatype Filed = Filed(call: Id, report: Report)
  /** The update that made a call reportable, and what it then was to report. */
  datatype Exit = Exit(mover: Tid, report: Report)

  /** Tables, Control's records, threads, and the history the theorems speak about:
      `marks` holds the marker that changed the row, `sends` the calls of
      Session.Send, `reports` every ObserveTool request issued, `early` the calls that
      were settled from UNKNOWN before any observation of them was recorded, `risky` those
      the operator path was started on while they were UNKNOWN and not yet observed. */
  datatype State = State(
    opts: Options, now: Time, db: Db, control: map<Id, Dispatch>, threads: map<Tid, Pc>, nextTid: Tid,
    marks: map<Id, Marker>, sends: seq<SendEvent>, exits: map<Id, Exit>, reports: set<Filed>, early: set<Id>,
    risky: set<Id>)

  ghost predicate Init(s: State) {
    s == State(s.opts, s.now, Db(map[], map[], map[], map[]), map[], map[], 0, map[], [], map[], {}, {}, {})
  }

  function Goto(s: State, t: Tid, pc: Pc): State {
    s.(threads := s.threads[t := pc])
  }

  function Stop(s: State, t: Tid): State {
    s.(threads := s.threads - {t})
  }

  function Spawn(s: State, pc: Pc): State {
    s.(threads := s.threads[s.nextTid := pc], nextTid := s.nextTid + 1)
  }

  function WithCalls(s: State, calls: map<Id, Call>): State {
    s.(db := s.db.(calls := calls))
  }

  /** A row leaves `sent` or `admitted` for the first state that is reported. */
  function Leave(s: State, t: Tid, c: Id, u: Sql.CallUpdate): State {
    if u.changed == 1 && c in u.calls && u.calls[c].Reportable() && u.calls[c].dispatch.Some? then
      WithCalls(s, u.calls).(exits := s.exits[c := Exit(t, ReportOf(u.calls[c]))])
    else
      WithCalls(s, u.calls)
  }

  // ---------------------------------------------------------------- environment steps

  predicate Tick(s: State, s': State, d: nat) {
    s' == s.(now := s.now + d)
  }

  predicate Crash(s: State, s': State, t: Tid) {
    t in s.threads && s' == Stop(s, t)
  }

  /** Control records the first AdmitTool of a call whose answer reaches nobody. */
  ghost predicate ControlRecords(s: State, s': State, c: Id, d: Id) {
    && c !in s.control
    && FreshDispatch(s, d)
    && s' == s.(control := s.control[c := Dispatch(d, None)])
  }

  ghost predicate FreshDispatch(s: State, d: Id) {
    forall c | c in s.control :: s.control[c].id != d
  }

  // ---------------------------------------------------------------- management transactions

  /** Discover, Review, Disable, an accepted refresh drift, Grants.Create, Grants.Revoke and the expiry. */
  datatype Management =
    | Discover(server: Id, tenant: Id, digest: Id, methods: set<string>, actor: Id)
    | Review(key: DescriptorKey, tenant: Id, actor: Id, digest: Id, approve: bool)
    | Disable(key: DescriptorKey, tenant: Id)
    | AcceptDrift(key: DescriptorKey)
    | CreateGrant(grant: Id, req: Sql.GrantRequest)
    | Revoke(grant: Id, tenant: Id, expectedRevision: nat, reason: Code)
    | Expire(grant: Id)

  ghost function Managed(db: Db, m: Management, now: Time): Db {
    match m
    case Discover(server, tenant, digest, methods, actor) => Sql.Discover(db, server, tenant, digest, methods, actor)
    case Review(key, tenant, actor, digest, approve) => Sql.Review(db, key, tenant, actor, digest, approve)
    case Disable(key, tenant) => Sql.Disable(db, key, tenant)
    case AcceptDrift(key) => Sql.AcceptDrift(db, key)
    case CreateGrant(grant, req) => Sql.CreateGrant(db, grant, req, now)
    case Revoke(grant, tenant, expected, reason) => Sql.RevokeGrant(db, grant, tenant, expected, reason)
    case Expire(grant) => Sql.ExpireGrant(db, grant, now)
  }

  ghost predicate Manage(s: State, s': State, m: Management) {
    s' == s.(db := Managed(s.db, m, s.now))
  }

  // ---------------------------------------------------------------- grant threads

  predicate StartRegister(s: State, s': State, g: Id) {
    g in s.db.grants && s.db.grants[g].state == Pending && s' == Spawn(s, Registering(g))
  }

  predicate AnswerRegister(s: State, s': State, t: Tid, answer: Sql.Registration) {
    t in s.threads && s.threads[t].Registering? && s' == Goto(s, t, Registered(s.threads[t].grant, answer))
  }

  predicate CommitRegister(s: State, s': State, t: Tid, wire: Wire) {
    t in s.threads && s.threads[t].Registered?
    && var db := Sql.RegisterGrant(s.db, s.threads[t].grant, s.threads[t].answer);
    s' == Stop(if wire == LostBefore then s else s.(db := db), t)
  }

  predicate StartBarrier(s: State, s': State, g: Id) {
    g in s.db.grants && s.db.grants[g].state == Revoking && s' == Spawn(s, Fencing(g, s.db.grants[g].revision))
  }

  /** BeginRevocation or Revocation; an unanswered call ends the run. */
  predicate AnswerBarrier(s: State, s': State, t: Tid, b: Sql.Barrier) {
    t in s.threads && s.threads[t].Fencing? && b.Valid()
    && s' == Goto(s, t, Counting(s.threads[t].grant, s.threads[t].revision, b))
  }

  /** CountOpenToolRequests, before and outside the finalising transaction. */
  ghost predicate CountOpen(s: State, s': State, t: Tid) {
    t in s.threads && s.threads[t].Counting?
    && var Counting(g, r, b) := s.threads[t];
    s' == Goto(s, t, Finalizing(g, r, b, Sql.NoOpenCall(s.db.calls, g, r)))
  }

  predicate CommitBarrier(s: State, s': State, t: Tid, wire: Wire) {
    t in s.threads && s.threads[t].Finalizing?
    && var Finalizing(g, _, b, noneOpen) := s.threads[t];
    var db := Sql.AdvanceGrant(s.db, g, b, noneOpen, s.now);
    s' == Stop(if wire == LostBefore then s else s.(db := db), t)
  }

  // ---------------------------------------------------------------- creating and admitting a call

  /** Create after its replay lookup and its checks: the clock is read here. */
  predicate StartCreate(s: State, s': State, c: Id, req: Sql.CallRequest) {
    s' == Spawn(s, Creating(c, req, s.now))
  }

  ghost predicate CommitCreate(s: State, s': State, t: Tid, wire: Wire) {
    t in s.threads && s.threads[t].Creating?
    && var Creating(c, req, at) := s.threads[t];
    var s1 := if wire == LostBefore then s else s.(db := Sql.CreateCall(s.db, c, req, at, s.now));
    s' == if wire == Answered && c !in s.db.calls && c in s1.db.calls then Goto(s1, t, Loading(c)) else Stop(s1, t)
  }

  /** advance: the detached dispatch reads the call it continues. */
  predicate Load(s: State, s': State, t: Tid) {
    t in s.threads && s.threads[t].Loading? && s.threads[t].call in s.db.calls
    && var c := s.threads[t].call; var row := s.db.calls[c];
    s' == if row.state == Accepted then Goto(s, t, Admitting(c, row))
          else if row.Reportable() && row.observedAt.None? then Goto(s, t, Observing(c, row, false))
          else Stop(s, t)
  }

  /** AdmitTool answered: the first request of a call may receive the one permission,
      any later one receives the recorded dispatch without it. */
  ghost predicate Admit(s: State, s': State, t: Tid, d: Id, verdict: Verdict) {
    t in s.threads && s.threads[t].Admitting?
    && var Admitting(c, row) := s.threads[t];
    if c in s.control then
      && d == s.control[c].id
      && !verdict.Permitted?
      && s' == Goto(s, t, Recording(c, row, d, verdict))
    else
      && FreshDispatch(s, d)
      && !verdict.NotPermitted?
      && s' == Goto(s.(control := s.control[c := Dispatch(d, if verdict.Permitted? then Some(t) else None)]), t,
                    Recording(c, row, d, verdict))
  }

  predicate RecordAdmission(s: State, s': State, t: Tid, wire: Wire) {
    t in s.threads && s.threads[t].Recording?
    && var Recording(c, row, d, verdict) := s.threads[t];
    var u := Sql.SetAdmission(s.db.calls, c, if verdict.Refusal? then Denied else Admitted, d,
                              if verdict.Refusal? then verdict.code else NoCode, s.now);
    var s1 := if wire == LostBefore then s else WithCalls(s, u.calls);
    s' == if wire != Answered || u.changed != 1 then Stop(s1, t)
          else match verdict
            case Permitted => Goto(s1, t, Qualifying(c, row.(state := Admitted, dispatch := Some(d))))
            case Refusal(_) => Stop(s1, t)
            case NotPermitted => Goto(s1, t, Canceling(c, SendNotAttempted))
  }

  // ---------------------------------------------------------------- sending

  /** The grant, the descriptor and the server are read and the send bound starts; a failed read cancels. */
  predicate StartSend(s: State, s': State, t: Tid, readable: bool) {
    t in s.threads && s.threads[t].Qualifying?
    && var Qualifying(c, row) := s.threads[t];
    var bound := if s.now + s.opts.sendTimeout <= row.deadline then s.now + s.opts.sendTimeout else row.deadline;
    s' == Goto(s, t, if readable then Opening(c, row, bound) else Canceling(c, GrantNotExecutable))
  }

  /** Token and Open; a refusal, or a bound that elapsed meanwhile, cancels. */
  predicate Open(s: State, s': State, t: Tid, refusal: Option<Code>) {
    t in s.threads && s.threads[t].Opening?
    && var Opening(c, row, bound) := s.threads[t];
    s' == Goto(s, t,
               if refusal.Some? then Canceling(c, refusal.value)
               else if bound <= s.now then Canceling(c, SendNotAttempted)
               else Marking(c, row, bound))
  }

  predicate Mark(s: State, s': State, t: Tid, wire: Wire) {
    t in s.threads && s.threads[t].Marking?
    && var Marking(c, row, bound) := s.threads[t];
    var u := Sql.MarkCall(s.db, c, row, s.now);
    var s1 := if wire == LostBefore
        || u.changed != 1 then s else WithCalls(s, u.calls).(marks := s.marks[c := Marker(t, bound)]);
    s' == if wire != Answered then Stop(s1, t)
          else if u.changed != 1 then Goto(s1, t, Canceling(c, GrantNotExecutable))
          else Goto(s1, t, Sending(c, bound))
  }

  /** The reply of the one tools/call. */
  datatype Reply = Result | ToolError | Answer(code: Code) | NoOutcome(code: Code)

  /** Session.Send is called and returns. */
  predicate Send(s: State, s': State, t: Tid, reply: Reply) {
    t in s.threads && s.threads[t].Sending?
    && var c := s.threads[t].call;
    var (state, code) :=
      match reply
      case Result => (Succeeded, NoCode)
      case ToolError => (Failed, ToolFailed)
      case Answer(code) => (Failed, code)
      case NoOutcome(code) => (Unknown, code);
    s' == Goto(s.(sends := s.sends + [SendEvent(c, t, reply)]), t, Concluding(c, state, code))
  }

  predicate Conclude(s: State, s': State, t: Tid, wire: Wire) {
    t in s.threads && s.threads[t].Concluding?
    && var Concluding(c, state, code) := s.threads[t];
    var u := Sql.SetOutcome(s.db.calls, c, state, code, if state == Unknown then None else Some(1), Sent, s.now);
    Left(s, s', t, c, u, wire)
  }

  /** An update that ends the unreported part of a call: whoever changed the row reads it back and reports it. */
  predicate Left(s: State, s': State, t: Tid, c: Id, u: Sql.CallUpdate, wire: Wire) {
    var s1 := if wire == LostBefore then s else Leave(s, t, c, u);
    s' == if wire == Answered && u.changed == 1 then Goto(s1, t, Reloading(c)) else Stop(s1, t)
  }

  predicate Cancel(s: State, s': State, t: Tid, wire: Wire) {
    t in s.threads && s.threads[t].Canceling?
    && var Canceling(c, code) := s.threads[t];
    Left(s, s', t, c, Sql.SetOutcome(s.db.calls, c, Canceled, code, Some(0), Admitted, s.now), wire)
  }

  // ---------------------------------------------------------------- reconciler, operator, shutdown

  /** The predicate of ListOpenToolRequests. */
  predicate Eligible(c: Call, now: Time, age: Time, sentAge: Time) {
    || ((c.state.Accepted? || c.state.Admitted? || c.state.Unknown?
         || (c.observedAt.None? && c.dispatch.Some? && (c.state.Succeeded? || c.state.Failed? || c.state.Canceled?)))
        && c.updatedAt < now - age)
    || (c.state == Sent && c.marker.Some? && c.marker.value < now - sentAge)
  }

  /** reconcileOne on a listed row; `due` is the throttle of the Control queries. */
  predicate StartReconcile(s: State, s': State, c: Id, due: bool) {
    c in s.db.calls && Eligible(s.db.calls[c], s.now, s.opts.reconcileAge, SentAge(s.opts))
    && var row := s.db.calls[c];
    match row.state
    case Accepted => s' == Spawn(s, Admitting(c, row))
    case Admitted => s' == Spawn(s, Canceling(c, SendNotAttempted))
    case Sent => s' == Spawn(s, Abandoning(c))
    case Unknown =>
      if row.observedAt.None? then s' == Spawn(s, Observing(c, row, false))
      else if due then s' == Spawn(s, Resolving(c, row))
      else s' == s
    case _ => s' == Spawn(s, Observing(c, row, false))
  }

  /** ReconcileCall. */
  predicate StartOperator(s: State, s': State, c: Id) {
    c in s.db.calls
    && var row := s.db.calls[c];
    match row.state
    case Unknown =>
      if row.observedAt.None? then s' == Spawn(s.(risky := s.risky + {c}), Observing(c, row, true))
      else s' == Spawn(s, Resolving(c, row))
    case Sent => s' == Spawn(s, Abandoning(c))
    case Succeeded | Failed | Canceled =>
      if row.observedAt.None? && row.dispatch.Some? then s' == Spawn(s, Observing(c, row, false)) else s' == s
    case _ => s' == s
  }

  predicate Abandon(s: State, s': State, t: Tid, wire: Wire) {
    t in s.threads && s.threads[t].Abandoning?
    && var c := s.threads[t].call;
    Left(s, s', t, c, Sql.SetAbandoned(s.db.calls, c, OutcomeUnknown, SentAge(s.opts), s.now), wire)
  }

  /** Shutdown: one call of the process that was still live when its drain ended. */
  predicate StartShutdown(s: State, s': State, c: Id) {
    c in s.db.calls && s' == Spawn(s, Stopping(c))
  }

  predicate ShutDown(s: State, s': State, t: Tid, wire: Wire) {
    t in s.threads && s.threads[t].Stopping?
    && var c := s.threads[t].call;
    Left(s, s', t, c, Sql.SetOutcome(s.db.calls, c, Unknown, OutcomeUnknown, None, Sent, s.now), wire)
  }

  // ---------------------------------------------------------------- observing and resolving

  predicate Reload(s: State, s': State, t: Tid) {
    t in s.threads && s.threads[t].Reloading? && s.threads[t].call in s.db.calls
    && s' == Goto(s, t, Observing(s.threads[t].call, s.db.calls[s.threads[t].call], false))
  }

  /** observe up to Control's answer: the request is issued whether or not it is answered. */
  predicate Observe(s: State, s': State, t: Tid, answered: bool) {
    t in s.threads && s.threads[t].Observing?
    && var Observing(c, row, operator) := s.threads[t];
    if !row.Reportable() || row.dispatch.None? then
      s' == Stop(s, t)
    else
      var s1 := s.(reports := s.reports + {Filed(c, ReportOf(row))});
      s' == if answered then Goto(s1, t, Acknowledging(c, row, operator))
            else if operator then Goto(s1, t, Resolving(c, row))
            else Stop(s1, t)
  }

  predicate Acknowledge(s: State, s': State, t: Tid, wire: Wire) {
    t in s.threads && s.threads[t].Acknowledging?
    && var Acknowledging(c, row, operator) := s.threads[t];
    var s1 := if wire == LostBefore then s
      else WithCalls(s, Sql.SetObserved(s.db.calls, c, row.observations, s.now).calls);
    s' == if operator then Goto(s1, t, Resolving(c, row)) else Stop(s1, t)
  }

  /** Control's record of a dispatch, as resolve reads it. */
  datatype DispatchView = ConfirmedNotSent | ObservedAs(outcome: Outcome) | StillUnknown

  predicate AskControl(s: State, s': State, t: Tid, view: DispatchView) {
    t in s.threads && s.threads[t].Resolving?
    && var Resolving(c, row) := s.threads[t];
    s' == match view
          case ConfirmedNotSent => Goto(s, t, Settling(c, row, Failed, WasNotSent))
          case ObservedAs(OutSucceeded) => Goto(s, t, Settling(c, row, Succeeded, NoCode))
          case ObservedAs(o) => Goto(s, t, Settling(c, row, Failed, ResolvedAs(OutcomeName(o))))
          case StillUnknown => Stop(s, t)
  }

  predicate Settle(s: State, s': State, t: Tid, wire: Wire) {
    t in s.threads && s.threads[t].Settling?
    && var Settling(c, _, state, code) := s.threads[t];
    var u := Sql.SetOutcome(s.db.calls, c, state, code, None, Unknown, s.now);
    var s1 := if wire == LostBefore || u.changed != 1 then s
              else WithCalls(s, u.calls).(early := if c in s.db.calls
                                          && s.db.calls[c].observedAt.None? then s.early + {c} else s.early);
    s' == Stop(s1, t)
  }

  // ---------------------------------------------------------------- steps and runs

  datatype Step =
    | STick(d: nat) | SCrash(t: Tid) | SControlRecords(call: Id, dispatch: Id) | SManage(m: Management)
    | SStartRegister(grant: Id) | SAnswerRegister(t: Tid, answer: Sql.Registration)
    | SCommitRegister(t: Tid, wire: Wire)
    | SStartBarrier(grant: Id) | SAnswerBarrier(t: Tid, barrier: Sql.Barrier) | SCountOpen(t: Tid)
    | SCommitBarrier(t: Tid, wire: Wire)
    | SStartCreate(call: Id, req: Sql.CallRequest) | SCommitCreate(t: Tid, wire: Wire) | SLoad(t: Tid)
    | SAdmit(t: Tid, dispatch: Id, verdict: Verdict) | SRecordAdmission(t: Tid, wire: Wire)
    | SStartSend(t: Tid, readable: bool) | SOpen(t: Tid, refusal: Option<Code>) | SMark(t: Tid, wire: Wire)
    | SSend(t: Tid, reply: Reply) | SConclude(t: Tid, wire: Wire) | SCancel(t: Tid, wire: Wire)
    | SStartReconcile(call: Id, due: bool) | SStartOperator(call: Id) | SAbandon(t: Tid, wire: Wire)
    | SStartShutdown(call: Id) | SShutDown(t: Tid, wire: Wire)
    | SReload(t: Tid) | SObserve(t: Tid, answered: bool) | SAcknowledge(t: Tid, wire: Wire)
    | SAskControl(t: Tid, view: DispatchView) | SSettle(t: Tid, wire: Wire)

  ghost predicate Next(s: State, step: Step, s': State) {
    match step
    case STick(d) => Tick(s, s', d)
    case SCrash(t) => Crash(s, s', t)
    case SControlRecords(c, d) => ControlRecords(s, s', c, d)
    case SManage(m) => Manage(s, s', m)
    case SStartRegister(g) => StartRegister(s, s', g)
    case SAnswerRegister(t, answer) => AnswerRegister(s, s', t, answer)
    case SCommitRegister(t, wire) => CommitRegister(s, s', t, wire)
    case SStartBarrier(g) => StartBarrier(s, s', g)
    case SAnswerBarrier(t, b) => AnswerBarrier(s, s', t, b)
    case SCountOpen(t) => CountOpen(s, s', t)
    case SCommitBarrier(t, wire) => CommitBarrier(s, s', t, wire)
    case SStartCreate(c, req) => StartCreate(s, s', c, req)
    case SCommitCreate(t, wire) => CommitCreate(s, s', t, wire)
    case SLoad(t) => Load(s, s', t)
    case SAdmit(t, d, verdict) => Admit(s, s', t, d, verdict)
    case SRecordAdmission(t, wire) => RecordAdmission(s, s', t, wire)
    case SStartSend(t, readable) => StartSend(s, s', t, readable)
    case SOpen(t, refusal) => Open(s, s', t, refusal)
    case SMark(t, wire) => Mark(s, s', t, wire)
    case SSend(t, reply) => Send(s, s', t, reply)
    case SConclude(t, wire) => Conclude(s, s', t, wire)
    case SCancel(t, wire) => Cancel(s, s', t, wire)
    case SStartReconcile(c, due) => StartReconcile(s, s', c, due)
    case SStartOperator(c) => StartOperator(s, s', c)
    case SAbandon(t, wire) => Abandon(s, s', t, wire)
    case SStartShutdown(c) => StartShutdown(s, s', c)
    case SShutDown(t, wire) => ShutDown(s, s', t, wire)
    case SReload(t) => Reload(s, s', t)
    case SObserve(t, answered) => Observe(s, s', t, answered)
    case SAcknowledge(t, wire) => Acknowledge(s, s', t, wire)
    case SAskControl(t, view) => AskControl(s, s', t, view)
    case SSettle(t, wire) => Settle(s, s', t, wire)
  }

  /** The steps up to the recorded admission of a call. */
  predicate Early(step: Step) {
    || step.STick? || step.SCrash? || step.SControlRecords? || step.SManage? || step.SStartRegister?
        || step.SAnswerRegister?
    || step.SCommitRegister? || step.SStartBarrier? || step.SAnswerBarrier? || step.SCountOpen? || step.SCommitBarrier?
    || step.SStartCreate? || step.SCommitCreate? || step.SLoad? || step.SAdmit? || step.SRecordAdmission?
  }

  /** A run: states joined by steps, from empty tables. */
  datatype Run = Run(states: seq<State>, steps: seq<Step>)

  ghost predicate ValidRun(r: Run) {
    && |r.states| == |r.steps| + 1
    && Init(r.states[0])
    && forall i :: 0 <= i < |r.steps| ==> Next(r.states[i], r.steps[i], r.states[i + 1])
  }
}
