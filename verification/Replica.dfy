/** A process at work on the tables: each of its transactions, run on the object that holds them, is the step of the
    protocol that its thread is at, and so keeps the invariant. */
module Replica {
  import opened Basics
  import opened Rows
  import opened Protocol
  import opened Invariant
  import Preservation
  import Sql
  import Store

  // ---------------------------------------------------------------- the step a transaction is

  lemma StepIsKept(s: State, step: Step, s': State)
    requires Inv(s) && Next(s, step, s')
    ensures Inv(s')
  {
    hide Inv, Next, Evolves;
    Preservation.StepKept(s, step, s');
  }

  lemma MarkUnchanged(db: Db, c: Id, row: Call, now: Time)
    ensures Sql.MarkCall(db, c, row, now).changed != 1 ==> Sql.MarkCall(db, c, row, now).calls == db.calls
  {
  }

  lemma Marks(s: State, t: Tid) returns (s': State)
    requires t in s.threads && s.threads[t].Marking?
    ensures Next(s, SMark(t, Answered), s') && t in s'.threads
    ensures var u := Sql.MarkCall(s.db, s.threads[t].call, s.threads[t].row, s.now);
      && s'.db == s.db.(calls := u.calls)
      && (s'.threads[t] == Sending(s.threads[t].call, s.threads[t].bound) <==> u.changed == 1)
  {
    var Marking(c, row, bound) := s.threads[t];
    var u := Sql.MarkCall(s.db, c, row, s.now);
    MarkUnchanged(s.db, c, row, s.now);
    hide Sql.MarkCall;
    s' := if u.changed == 1 then Goto(WithCalls(s, u.calls).(marks := s.marks[c := Marker(t, bound)]), t,
                                      Sending(c, bound))
          else Goto(s, t, Canceling(c, GrantNotExecutable));
  }

  lemma Admits(s: State, t: Tid) returns (s': State)
    requires t in s.threads && s.threads[t].Recording?
    ensures Next(s, SRecordAdmission(t, Answered), s')
    ensures var Recording(c, row, d, verdict) := s.threads[t];
      s'.db.calls == Sql.SetAdmission(s.db.calls, c, if verdict.Refusal? then Denied else Admitted, d,
                                      if verdict.Refusal? then verdict.code else NoCode, s.now).calls
    ensures s'.db == s.db.(calls := s'.db.calls)
  {
    var Recording(c, row, d, verdict) := s.threads[t];
    var u := Sql.SetAdmission(s.db.calls, c, if verdict.Refusal? then Denied else Admitted, d,
                              if verdict.Refusal? then verdict.code else NoCode, s.now);
    hide Sql.SetAdmission;
    var s1 := WithCalls(s, u.calls);
    s' := if u.changed != 1 || verdict.Refusal? then Stop(s1, t)
          else if verdict.Permitted? then Goto(s1, t, Qualifying(c, row.(state := Admitted, dispatch := Some(d))))
          else Goto(s1, t, Canceling(c, SendNotAttempted));
    assert RecordAdmission(s, s', t, Answered);
  }

  lemma Creates(s: State, t: Tid) returns (s': State)
    requires t in s.threads && s.threads[t].Creating?
    ensures Next(s, SCommitCreate(t, Answered), s')
    ensures s'.db == Sql.CreateCall(s.db, s.threads[t].call, s.threads[t].req, s.threads[t].at, s.now)
  {
    var Creating(c, req, at) := s.threads[t];
    var s1 := s.(db := Sql.CreateCall(s.db, c, req, at, s.now));
    hide Sql.CreateCall;
    s' := if c !in s.db.calls && c in s1.db.calls then Goto(s1, t, Loading(c)) else Stop(s1, t);
    assert CommitCreate(s, s', t, Answered);
  }

  /** A write that ends the unreported part of a call, or misses it. */
  lemma Leaves(s: State, t: Tid, c: Id, u: Sql.CallUpdate) returns (s': State)
    ensures Left(s, s', t, c, u, Answered) && s'.db == s.db.(calls := u.calls)
  {
    hide ReportOf;
    var s1 := Leave(s, t, c, u);
    s' := if u.changed == 1 then Goto(s1, t, Reloading(c)) else Stop(s1, t);
  }

  lemma Concludes(s: State, t: Tid) returns (s': State)
    requires t in s.threads && s.threads[t].Concluding?
    ensures Next(s, SConclude(t, Answered), s')
    ensures var Concluding(c, state, code) := s.threads[t];
      s'.db == s.db.(calls := Sql.SetOutcome(s.db.calls, c, state, code, if state == Unknown then None else Some(1),
                                             Sent, s.now).calls)
  {
    hide Left, Sql.SetOutcome;
    var Concluding(c, state, code) := s.threads[t];
    s' := Leaves(s, t, c, Sql.SetOutcome(s.db.calls, c, state, code, if state == Unknown then None else Some(1), Sent,
                                         s.now));
  }

  lemma Cancels(s: State, t: Tid) returns (s': State)
    requires t in s.threads && s.threads[t].Canceling?
    ensures Next(s, SCancel(t, Answered), s')
    ensures var Canceling(c, code) := s.threads[t];
      s'.db == s.db.(calls := Sql.SetOutcome(s.db.calls, c, Canceled, code, Some(0), Admitted, s.now).calls)
  {
    hide Left, Sql.SetOutcome;
    var Canceling(c, code) := s.threads[t];
    s' := Leaves(s, t, c, Sql.SetOutcome(s.db.calls, c, Canceled, code, Some(0), Admitted, s.now));
  }

  lemma Abandons(s: State, t: Tid) returns (s': State)
    requires t in s.threads && s.threads[t].Abandoning?
    ensures Next(s, SAbandon(t, Answered), s')
    ensures s'.db == s.db.(calls := Sql.SetAbandoned(s.db.calls, s.threads[t].call, OutcomeUnknown, SentAge(s.opts),
                                                     s.now).calls)
  {
    hide Left, Sql.SetAbandoned;
    s' := Leaves(s, t, s.threads[t].call,
                 Sql.SetAbandoned(s.db.calls, s.threads[t].call, OutcomeUnknown, SentAge(s.opts), s.now));
  }

  lemma Stops(s: State, t: Tid) returns (s': State)
    requires t in s.threads && s.threads[t].Stopping?
    ensures Next(s, SShutDown(t, Answered), s')
    ensures s'.db == s.db.(calls := Sql.SetOutcome(s.db.calls, s.threads[t].call, Unknown, OutcomeUnknown, None, Sent,
                                                   s.now).calls)
  {
    hide Left, Sql.SetOutcome;
    s' := Leaves(s, t, s.threads[t].call,
                 Sql.SetOutcome(s.db.calls, s.threads[t].call, Unknown, OutcomeUnknown, None, Sent, s.now));
  }

  lemma Acknowledges(s: State, t: Tid) returns (s': State)
    requires t in s.threads && s.threads[t].Acknowledging?
    ensures Next(s, SAcknowledge(t, Answered), s')
    ensures var Acknowledging(c, row, operator) := s.threads[t];
      s'.db == s.db.(calls := Sql.SetObserved(s.db.calls, c, row.observations, s.now).calls)
  {
    hide Sql.SetObserved;
    var Acknowledging(c, row, operator) := s.threads[t];
    var s1 := WithCalls(s, Sql.SetObserved(s.db.calls, c, row.observations, s.now).calls);
    s' := if operator then Goto(s1, t, Resolving(c, row)) else Stop(s1, t);
  }

  lemma OutcomeUnchanged(calls: map<Id, Call>, c: Id, state: CallState, code: Code, usage: Option<nat>,
                         expected: CallState, now: Time)
    ensures var u := Sql.SetOutcome(calls, c, state, code, usage, expected, now); u.changed != 1 ==> u.calls == calls
  {
  }

  lemma SettlesCall(s: State, t: Tid) returns (s': State)
    requires t in s.threads && s.threads[t].Settling?
    ensures Next(s, SSettle(t, Answered), s')
    ensures var Settling(c, _, state, code) := s.threads[t];
      s'.db == s.db.(calls := Sql.SetOutcome(s.db.calls, c, state, code, None, Unknown, s.now).calls)
  {
    var Settling(c, _, state, code) := s.threads[t];
    var u := Sql.SetOutcome(s.db.calls, c, state, code, None, Unknown, s.now);
    OutcomeUnchanged(s.db.calls, c, state, code, None, Unknown, s.now);
    hide Sql.SetOutcome;
    var early := if c in s.db.calls && s.db.calls[c].observedAt.None? then s.early + {c} else s.early;
    s' := Stop(if u.changed != 1 then s else WithCalls(s, u.calls).(early := early), t);
    assert Protocol.Settle(s, s', t, Answered);
  }

  lemma Registers(s: State, t: Tid) returns (s': State)
    requires t in s.threads && s.threads[t].Registered?
    ensures Next(s, SCommitRegister(t, Answered), s')
    ensures s'.db == Sql.RegisterGrant(s.db, s.threads[t].grant, s.threads[t].answer)
  {
    hide Sql.RegisterGrant;
    s' := Stop(s.(db := Sql.RegisterGrant(s.db, s.threads[t].grant, s.threads[t].answer)), t);
  }

  lemma Counts(s: State, t: Tid) returns (s': State)
    requires t in s.threads && s.threads[t].Counting?
    ensures Next(s, SCountOpen(t), s') && s'.db == s.db && t in s'.threads
    ensures var Counting(g, r, b) := s.threads[t]; s'.threads[t] == Finalizing(g, r, b,
        Sql.NoOpenCall(s.db.calls, g, r))
  {
    hide Sql.NoOpenCall;
    var Counting(g, r, b) := s.threads[t];
    s' := Goto(s, t, Finalizing(g, r, b, Sql.NoOpenCall(s.db.calls, g, r)));
  }

  lemma Finalizes(s: State, t: Tid) returns (s': State)
    requires t in s.threads && s.threads[t].Finalizing?
    ensures Next(s, SCommitBarrier(t, Answered), s')
    ensures var Finalizing(g, _, b, noneOpen) := s.threads[t]; s'.db == Sql.AdvanceGrant(s.db, g, b, noneOpen, s.now)
  {
    hide Sql.AdvanceGrant;
    var Finalizing(g, _, b, noneOpen) := s.threads[t];
    s' := Stop(s.(db := Sql.AdvanceGrant(s.db, g, b, noneOpen, s.now)), t);
  }

  lemma Manages(s: State, m: Management) returns (s': State)
    ensures Next(s, SManage(m), s') && s'.db == Managed(s.db, m, s.now)
  {
    hide Managed;
    s' := s.(db := Managed(s.db, m, s.now));
  }

  // ---------------------------------------------------------------- the process

  class Process {
    const tables: Store.Tables
    /** The system as it stands, this process and all others. */
    ghost var s: State

    ghost predicate Valid()
      reads this, tables
    {
      s.db == tables.View() && Inv(s)
    }

    constructor (tables: Store.Tables, ghost opts: Options, ghost now: Time)
      requires tables.View() == Db(map[], map[], map[], map[])
      ensures Valid() && Init(s) && this.tables == tables
    {
      this.tables := tables;
      s := State(opts, now, Db(map[], map[], map[], map[]), map[], map[], 0, map[], [], map[], {}, {}, {});
      new;
      Preservation.InitOk(s);
    }

    /** The marker transaction of send; the thread goes on to send exactly when it marked the row. */
    method Mark(ghost t: Tid, c: Id, row: Call, ghost bound: Time, now: Time) returns (marked: bool)
      requires Valid() && t in s.threads && s.threads[t] == Marking(c, row, bound) && now == s.now
      modifies this`s, tables`calls
      ensures Valid() && Next(old(s), SMark(t, Answered), s)
      ensures t in s.threads && (marked <==> s.threads[t] == Sending(c, bound))
    {
      hide Inv, Next, Sql.MarkCall;
      ghost var s' := Marks(s, t);
      StepIsKept(s, SMark(t, Answered), s');
      marked := tables.MarkCall(c, row, now);
      s := s';
    }

    /** The admission of admit, recorded. */
    method RecordAdmission(ghost t: Tid, c: Id, ghost row: Call, d: Id, verdict: Verdict, now: Time)
      requires Valid() && t in s.threads && s.threads[t] == Recording(c, row, d, verdict) && now == s.now
      modifies this`s, tables`calls
      ensures Valid() && Next(old(s), SRecordAdmission(t, Answered), s)
    {
      hide Inv, Next, Sql.SetAdmission;
      ghost var s' := Admits(s, t);
      StepIsKept(s, SRecordAdmission(t, Answered), s');
      var _ := tables.SetToolRequestAdmission(c, if verdict.Refusal? then Denied else Admitted, d,
                                              if verdict.Refusal? then verdict.code else NoCode, now);
      s := s';
    }

    /** The transaction of Create. */
    method Create(ghost t: Tid, c: Id, req: Sql.CallRequest, at: Time, now: Time) returns (inserted: bool)
      requires Valid() && t in s.threads && s.threads[t] == Creating(c, req, at) && now == s.now
      modifies this`s, tables`calls
      ensures Valid() && Next(old(s), SCommitCreate(t, Answered), s)
    {
      hide Inv, Next, Sql.CreateCall, Sql.CreateAdmits;
      ghost var s' := Creates(s, t);
      StepIsKept(s, SCommitCreate(t, Answered), s');
      inserted := tables.CreateCall(c, req, at, now);
      s := s';
    }

    /** The outcome of send, recorded. */
    method Conclude(ghost t: Tid, c: Id, state: CallState, code: Code, now: Time)
      requires Valid() && t in s.threads && s.threads[t] == Concluding(c, state, code) && now == s.now
      modifies this`s, tables`calls
      ensures Valid() && Next(old(s), SConclude(t, Answered), s)
    {
      hide Inv, Next, Sql.SetOutcome;
      ghost var s' := Concludes(s, t);
      StepIsKept(s, SConclude(t, Answered), s');
      var _ := tables.SetToolRequestOutcome(c, state, code, if state == Unknown then None else Some(1), Sent, now);
      s := s';
    }

    /** The update of cancel. */
    method Cancel(ghost t: Tid, c: Id, code: Code, now: Time)
      requires Valid() && t in s.threads && s.threads[t] == Canceling(c, code) && now == s.now
      modifies this`s, tables`calls
      ensures Valid() && Next(old(s), SCancel(t, Answered), s)
    {
      hide Inv, Next, Sql.SetOutcome;
      ghost var s' := Cancels(s, t);
      StepIsKept(s, SCancel(t, Answered), s');
      var _ := tables.SetToolRequestOutcome(c, Canceled, code, Some(0), Admitted, now);
      s := s';
    }

    /** The update of reconcileOne on a call past its send bound. */
    method Abandon(ghost t: Tid, c: Id, sentAge: Time, now: Time)
      requires Valid() && t in s.threads && s.threads[t] == Abandoning(c) && sentAge == SentAge(s.opts) && now == s.now
      modifies this`s, tables`calls
      ensures Valid() && Next(old(s), SAbandon(t, Answered), s)
    {
      hide Inv, Next, Sql.SetAbandoned;
      ghost var s' := Abandons(s, t);
      StepIsKept(s, SAbandon(t, Answered), s');
      var _ := tables.SetAbandonedToolRequestUnknown(c, OutcomeUnknown, sentAge, now);
      s := s';
    }

    /** The update of Shutdown on one tracked call. */
    method Stop(ghost t: Tid, c: Id, now: Time)
      requires Valid() && t in s.threads && s.threads[t] == Stopping(c) && now == s.now
      modifies this`s, tables`calls
      ensures Valid() && Next(old(s), SShutDown(t, Answered), s)
    {
      hide Inv, Next, Sql.SetOutcome;
      ghost var s' := Stops(s, t);
      StepIsKept(s, SShutDown(t, Answered), s');
      var _ := tables.SetToolRequestOutcome(c, Unknown, OutcomeUnknown, None, Sent, now);
      s := s';
    }

    /** The update of observe after Control answered. */
    method Acknowledge(ghost t: Tid, c: Id, row: Call, ghost operator: bool, now: Time)
      requires Valid() && t in s.threads && s.threads[t] == Acknowledging(c, row, operator) && now == s.now
      modifies this`s, tables`calls
      ensures Valid() && Next(old(s), SAcknowledge(t, Answered), s)
    {
      hide Inv, Next, Sql.SetObserved;
      ghost var s' := Acknowledges(s, t);
      StepIsKept(s, SAcknowledge(t, Answered), s');
      tables.SetToolRequestObserved(c, row.observations, now);
      s := s';
    }

    /** The update of resolve. */
    method Settle(ghost t: Tid, c: Id, ghost row: Call, state: CallState, code: Code, now: Time)
      requires Valid() && t in s.threads && s.threads[t] == Settling(c, row, state, code) && now == s.now
      modifies this`s, tables`calls
      ensures Valid() && Next(old(s), SSettle(t, Answered), s)
    {
      hide Inv, Next, Sql.SetOutcome;
      ghost var s' := SettlesCall(s, t);
      StepIsKept(s, SSettle(t, Answered), s');
      var _ := tables.SetToolRequestOutcome(c, state, code, None, Unknown, now);
      s := s';
    }

    /** The transaction of register. */
    method Register(ghost t: Tid, g: Id, answer: Sql.Registration)
      requires Valid() && t in s.threads && s.threads[t] == Registered(g, answer)
      modifies this`s, tables`grants
      ensures Valid() && Next(old(s), SCommitRegister(t, Answered), s)
    {
      hide Inv, Next, Sql.RegisterGrant;
      ghost var s' := Registers(s, t);
      StepIsKept(s, SCommitRegister(t, Answered), s');
      tables.RegisterGrant(g, answer);
      s := s';
    }

    /** The finalising transaction of advance, with the count read earlier. */
    method Finalize(ghost t: Tid, g: Id, ghost r: nat, b: Sql.Barrier, open: nat, now: Time)
      requires Valid() && t in s.threads && s.threads[t] == Finalizing(g, r, b, open == 0) && now == s.now
      modifies this`s, tables`grants
      ensures Valid() && Next(old(s), SCommitBarrier(t, Answered), s)
    {
      hide Inv, Next, Sql.AdvanceGrant;
      ghost var s' := Finalizes(s, t);
      StepIsKept(s, SCommitBarrier(t, Answered), s');
      tables.AdvanceGrant(g, b, open, now);
      s := s';
    }

    /** The count of advance, before and outside its transaction. */
    method Count(ghost t: Tid, g: Id, r: nat, ghost b: Sql.Barrier) returns (open: nat)
      requires Valid() && t in s.threads && s.threads[t] == Counting(g, r, b)
      modifies this`s
      ensures Valid() && Next(old(s), SCountOpen(t), s)
      ensures t in s.threads && s.threads[t] == Finalizing(g, r, b, open == 0)
    {
      hide Inv, Next, Sql.NoOpenCall, Sql.OpenCalls;
      ghost var s' := Counts(s, t);
      StepIsKept(s, SCountOpen(t), s');
      open := tables.CountOpenToolRequests(g, r);
      s := s';
    }

    /** The transaction of Discover. */
    method Discover(server: Id, tenant: Id, digest: Id, methods: set<string>, actor: Id)
      requires Valid()
      modifies this`s, tables`servers, tables`descriptors
      ensures Valid() && Next(old(s), SManage(Management.Discover(server, tenant, digest, methods, actor)), s)
    {
      hide Inv, Next, Sql.Discover;
      ghost var s' := Manages(s, Management.Discover(server, tenant, digest, methods, actor));
      StepIsKept(s, SManage(Management.Discover(server, tenant, digest, methods, actor)), s');
      tables.Discover(server, tenant, digest, methods, actor);
      s := s';
    }

    /** The transaction of Review. */
    method Review(key: DescriptorKey, tenant: Id, actor: Id, digest: Id, approve: bool)
      requires Valid()
      modifies this`s, tables`descriptors
      ensures Valid() && Next(old(s), SManage(Management.Review(key, tenant, actor, digest, approve)), s)
    {
      hide Inv, Next, Sql.Review;
      ghost var s' := Manages(s, Management.Review(key, tenant, actor, digest, approve));
      StepIsKept(s, SManage(Management.Review(key, tenant, actor, digest, approve)), s');
      tables.Review(key, tenant, actor, digest, approve);
      s := s';
    }

    /** The transaction of Disable. */
    method Disable(key: DescriptorKey, tenant: Id)
      requires Valid()
      modifies this`s, tables`descriptors, tables`grants
      ensures Valid() && Next(old(s), SManage(Management.Disable(key, tenant)), s)
    {
      hide Inv, Next, Sql.Disable;
      ghost var s' := Manages(s, Management.Disable(key, tenant));
      StepIsKept(s, SManage(Management.Disable(key, tenant)), s');
      tables.Disable(key, tenant);
      s := s';
    }

    /** The transaction of Grants.Create. */
    method CreateGrant(id: Id, req: Sql.GrantRequest, now: Time)
      requires Valid() && now == s.now
      modifies this`s, tables`grants
      ensures Valid() && Next(old(s), SManage(Management.CreateGrant(id, req)), s)
    {
      hide Inv, Next, Sql.CreateGrant;
      ghost var s' := Manages(s, Management.CreateGrant(id, req));
      StepIsKept(s, SManage(Management.CreateGrant(id, req)), s');
      tables.CreateGrant(id, req, now);
      s := s';
    }

    /** The transaction of Revoke. */
    method Revoke(id: Id, tenant: Id, expectedRevision: nat, reason: Code)
      requires Valid()
      modifies this`s, tables`grants
      ensures Valid() && Next(old(s), SManage(Management.Revoke(id, tenant, expectedRevision, reason)), s)
    {
      hide Inv, Next, Sql.RevokeGrant;
      ghost var s' := Manages(s, Management.Revoke(id, tenant, expectedRevision, reason));
      StepIsKept(s, SManage(Management.Revoke(id, tenant, expectedRevision, reason)), s');
      tables.RevokeGrant(id, tenant, expectedRevision, reason);
      s := s';
    }

    /** Anything else in the system moves: the clock, a thread of this process or of another, Control. The tables become
        what that step left. */
    method Environment(db: Db, ghost step: Step, ghost s': State)
      requires Valid() && Next(s, step, s') && s'.db == db
      modifies this`s, tables
      ensures Valid() && s == s'
    {
      hide Inv, Next;
      StepIsKept(s, step, s');
      tables.calls, tables.grants := db.calls, db.grants;
      tables.descriptors, tables.servers := db.descriptors, db.servers;
      s := s';
    }
  }
}
