/** Every step keeps the invariant and gives its guarantee. */
module Preservation {
  import opened Basics
  import opened Rows
  import opened Protocol
  import opened Invariant
  import Sql

  /** Preserved by `actor`: the invariant again, and the guarantee to the others. */
  ghost predicate Kept(s: State, s': State, actor: Tid) {
    Inv(s') && Evolves(s, s', actor)
  }

  lemma ThreadsKept(s: State, s': State, actor: Tid)
    requires ThreadsOk(s) && Evolves(s, s', actor)
    requires forall t | t in s'.threads && t != actor :: t in s.threads && s'.threads[t] == s.threads[t]
    requires actor in s'.threads ==> actor < s'.nextTid && ThreadOk(s', actor, s'.threads[actor])
    ensures ThreadsOk(s')
  {
    forall t | t in s'.threads
      ensures t < s'.nextTid && ThreadOk(s', t, s'.threads[t])
    {
      if t != actor { ThreadStable(s, s', actor, t, s.threads[t]); }
    }
  }

  /** Every part of the invariant but the calls and the threads, when only rows and threads move. */
  lemma HistoryKept(s: State, s': State, actor: Tid)
    requires SendsOk(s) && ReportsOk(s) && Evolves(s, s', actor)
    requires s'.sends == s.sends && s'.reports == s.reports
    ensures SendsOk(s') && ReportsOk(s')
  {
    forall f | f in s'.reports ensures FiledOk(s', f) { assert FiledOk(s, f); }
  }

  /** Nothing of the catalog, the grants and Control changed. */
  lemma OthersKept(s: State, s': State)
    requires GrantsOk(s.db) && ControlOk(s) && s.nextTid <= s'.nextTid
    requires s'.db == s.db.(calls := s'.db.calls) && s'.control == s.control
    ensures GrantsOk(s'.db) && ControlOk(s')
  {
    forall g | g in s'.db.grants ensures GrantOk(s'.db, s'.db.grants[g]) { assert GrantOk(s.db, s.db.grants[g]); }
    forall k | k in s'.db.descriptors ensures DescriptorOk(s'.db, k) { assert DescriptorOk(s.db, k); }
  }

  /** No row and no entry about a row changed. */
  lemma CallsKept(s: State, s': State, actor: Tid)
    requires CallsOk(s) && Evolves(s, s', actor)
    requires s'.db.calls == s.db.calls && s'.marks == s.marks && s'.exits == s.exits
    requires forall g | g in s.db.grants && g in s'.db.grants && s'.db.grants[g].state == Revoked
        && s.db.grants[g].state != Revoked ::
               forall c | c in s.db.calls && s.db.calls[c].grant == g :: s.db.calls[c].Terminal()
    ensures CallsOk(s')
  {
    forall c | c in s'.db.calls ensures CallOk(s', c) { CallStable(s, s', actor, c); }
  }

  // ---------------------------------------------------------------- steps that move only a thread

  predicate Quiet(s: State, s': State) {
    s.now <= s'.now && s.nextTid <= s'.nextTid && s' == s.(now := s'.now, threads := s'.threads, nextTid := s'.nextTid)
  }

  lemma QuietKept(s: State, s': State, actor: Tid)
    requires Inv(s) && Quiet(s, s')
    requires forall t | t in s'.threads && t != actor :: t in s.threads && s'.threads[t] == s.threads[t]
    requires actor in s'.threads ==> actor < s'.nextTid && ThreadOk(s', actor, s'.threads[actor])
    ensures Kept(s, s', actor)
  {
    hide ThreadOk, SendsOk, ReportsOk, CallOk, GrantsOk, ControlOk;
    assert Evolves(s, s', actor);
    OthersKept(s, s');
    CallsKept(s, s', actor);
    HistoryKept(s, s', actor);
    ThreadsKept(s, s', actor);
  }

  lemma TickKept(s: State, s': State, d: nat)
    requires Inv(s) && Tick(s, s', d)
    ensures Kept(s, s', s.nextTid)
  {
    QuietKept(s, s', s.nextTid);
  }

  lemma CrashKept(s: State, s': State, t: Tid)
    requires Inv(s) && Crash(s, s', t)
    ensures Kept(s, s', t)
  {
    QuietKept(s, s', t);
  }

  /** The new thread of a start, and the frame of a start. */
  lemma Started(s: State, s': State, pc: Pc)
    requires Inv(s) && s' == Spawn(s, pc) && ThreadOk(s, s.nextTid, pc)
    ensures Kept(s, s', s.nextTid)
  {
    assert s.nextTid !in s.threads;
    ThreadOkFrame(s, s', s.nextTid, pc);
    QuietKept(s, s', s.nextTid);
  }

  /** A thread that goes on, and the frame of its step. */
  lemma Moved(s: State, s': State, t: Tid, pc: Pc)
    requires Inv(s) && t in s.threads && s' == Goto(s, t, pc) && ThreadOk(s, t, pc)
    ensures Kept(s, s', t)
  {
    ThreadOkFrame(s, s', t, pc);
    QuietKept(s, s', t);
  }

  /** What a thread knows does not depend on the threads. */
  lemma ThreadOkFrame(s: State, s': State, t: Tid, pc: Pc)
    requires s' == s.(threads := s'.threads, nextTid := s'.nextTid) && ThreadOk(s, t, pc)
    ensures ThreadOk(s', t, pc)
  {
    if pc.Sending? { assert !WasSent(s', pc.call); }
    if pc.Concluding? { var i :| 0 <= i < |s.sends| && s.sends[i].call == pc.call; assert s'.sends[i].call == pc.call; }
  }

  /** What a running thread knows. */
  lemma Knows(s: State, t: Tid)
    requires Inv(s) && t in s.threads
    ensures t < s.nextTid && ThreadOk(s, t, s.threads[t])
  {
  }

  lemma StartRegisterKept(s: State, s': State, g: Id)
    requires Inv(s) && StartRegister(s, s', g)
    ensures Kept(s, s', s.nextTid)
  {
    hide Inv, Kept;
    Started(s, s', Registering(g));
  }

  lemma StartBarrierKept(s: State, s': State, g: Id)
    requires Inv(s) && StartBarrier(s, s', g)
    ensures Kept(s, s', s.nextTid)
  {
    hide Inv, Kept;
    Started(s, s', Fencing(g, s.db.grants[g].revision));
  }

  lemma StartCreateKept(s: State, s': State, c: Id, req: Sql.CallRequest)
    requires Inv(s) && StartCreate(s, s', c, req)
    ensures Kept(s, s', s.nextTid)
  {
    hide Inv, Kept;
    Started(s, s', Creating(c, req, s.now));
  }

  lemma StartShutdownKept(s: State, s': State, c: Id)
    requires Inv(s) && StartShutdown(s, s', c)
    ensures Kept(s, s', s.nextTid)
  {
    hide Inv, Kept;
    Started(s, s', Stopping(c));
  }

  /** A row nobody observed yet may be reported by anybody who reads it. */
  lemma UnobservedReader(s: State, t: Tid, c: Id, operator: bool)
    requires c in s.db.calls && CallOk(s, c) && s.db.calls[c].Reportable() && s.db.calls[c].observedAt.None?
    requires operator ==> c in s.risky
    ensures ThreadOk(s, t, Observing(c, s.db.calls[c], operator))
  {
  }

  lemma StartReconcileKept(s: State, s': State, c: Id, due: bool)
    requires Inv(s) && StartReconcile(s, s', c, due)
    ensures Kept(s, s', s.nextTid)
  {
    hide Inv, Kept;
    var row := s.db.calls[c];
    InvCall(s, c);
    match row.state
    case Accepted => Started(s, s', Admitting(c, row));
    case Admitted => Started(s, s', Canceling(c, SendNotAttempted));
    case Sent => Started(s, s', Abandoning(c));
    case Unknown =>
      if row.observedAt.None? {
        UnobservedReader(s, s.nextTid, c, false);
        Started(s, s', Observing(c, row, false));
      } else if due {
        Started(s, s', Resolving(c, row));
      } else {
        TickKept(s, s', 0);
      }
    case _ =>
      UnobservedReader(s, s.nextTid, c, false);
      Started(s, s', Observing(c, row, false));
  }

  lemma RiskyStart(s: State, s1: State, s': State)
    requires Kept(s1, s', s.nextTid) && s1 == s.(risky := s1.risky) && s.risky <= s1.risky
    requires s1.nextTid in s'.threads && s' == Spawn(s1, s'.threads[s1.nextTid])
    ensures Kept(s, s', s.nextTid)
  {
    hide Inv;
    assert CallsEvolve(s, s') && MarksEvolve(s, s', s.nextTid) && HistoryEvolves(s, s', s.nextTid);
  }

  lemma RiskTaken(s: State, s': State, c: Id)
    requires Inv(s) && c in s.db.calls && s' == s.(risky := s.risky + {c})
    ensures Inv(s') && CallOk(s', c)
  {
    hide ThreadOk, SendsOk, ReportsOk, CallOk, GrantsOk, ControlOk;
    assert Evolves(s, s', s.nextTid);
    OthersKept(s, s');
    CallsKept(s, s', s.nextTid);
    HistoryKept(s, s', s.nextTid);
    ThreadsKept(s, s', s.nextTid);
  }

  lemma StartOperatorKept(s: State, s': State, c: Id)
    requires Inv(s) && StartOperator(s, s', c)
    ensures Kept(s, s', s.nextTid)
  {
    hide Inv, Kept;
    var row := s.db.calls[c];
    InvCall(s, c);
    if s' == s {
      TickKept(s, s', 0);
    } else if row.state == Sent {
      Started(s, s', Abandoning(c));
    } else if row.observedAt.None? && row.state == Unknown {
      var s1 := s.(risky := s.risky + {c});
      RiskTaken(s, s1, c);
      UnobservedReader(s1, s1.nextTid, c, true);
      Started(s1, s', Observing(c, row, true));
      RiskyStart(s, s1, s');
    } else if row.observedAt.None? {
      UnobservedReader(s, s.nextTid, c, false);
      Started(s, s', Observing(c, row, false));
    } else {
      Started(s, s', Resolving(c, row));
    }
  }

  lemma AnswerRegisterKept(s: State, s': State, t: Tid, answer: Sql.Registration)
    requires Inv(s) && AnswerRegister(s, s', t, answer)
    ensures Kept(s, s', t)
  {
    hide Inv, Kept;
    Knows(s, t);
    Moved(s, s', t, Registered(s.threads[t].grant, answer));
  }

  lemma AnswerBarrierKept(s: State, s': State, t: Tid, b: Sql.Barrier)
    requires Inv(s) && AnswerBarrier(s, s', t, b)
    ensures Kept(s, s', t)
  {
    hide Inv, Kept;
    Knows(s, t);
    Moved(s, s', t, Counting(s.threads[t].grant, s.threads[t].revision, b));
  }

  lemma CountOpenKept(s: State, s': State, t: Tid)
    requires Inv(s) && CountOpen(s, s', t)
    ensures Kept(s, s', t)
  {
    hide Inv, Kept;
    Knows(s, t);
    var Counting(g, r, b) := s.threads[t];
    Moved(s, s', t, Finalizing(g, r, b, Sql.NoOpenCall(s.db.calls, g, r)));
  }

  lemma LoadKept(s: State, s': State, t: Tid)
    requires Inv(s) && Load(s, s', t)
    ensures Kept(s, s', t)
  {
    hide Inv, Kept;
    var c := s.threads[t].call;
    var row := s.db.calls[c];
    InvCall(s, c);
    if row.state == Accepted {
      Moved(s, s', t, Admitting(c, row));
    } else if row.Reportable() && row.observedAt.None? {
      UnobservedReader(s, t, c, false);
      Moved(s, s', t, Observing(c, row, false));
    } else {
      CrashKept(s, s', t);
    }
  }

  lemma StartSendKept(s: State, s': State, t: Tid, readable: bool)
    requires Inv(s) && StartSend(s, s', t, readable)
    ensures Kept(s, s', t)
  {
    hide Inv, Kept;
    Knows(s, t);
    Moved(s, s', t, s'.threads[t]);
  }

  lemma OpenKept(s: State, s': State, t: Tid, refusal: Option<Code>)
    requires Inv(s) && Open(s, s', t, refusal)
    ensures Kept(s, s', t)
  {
    hide Inv, Kept;
    Knows(s, t);
    Moved(s, s', t, s'.threads[t]);
  }

  /** The thread that ended the unreported part reads the row back: the only reader beyond the first sequence. */
  lemma ReloadKept(s: State, s': State, t: Tid)
    requires Inv(s) && Reload(s, s', t)
    ensures Kept(s, s', t)
  {
    hide Inv, Kept;
    Knows(s, t);
    InvCall(s, s.threads[t].call);
    Moved(s, s', t, s'.threads[t]);
  }

  lemma AskControlKept(s: State, s': State, t: Tid, view: DispatchView)
    requires Inv(s) && AskControl(s, s', t, view)
    ensures Kept(s, s', t)
  {
    hide Inv, Kept, AskControl;
    AskedControl(s, s', t, view);
    Knows(s, t);
    if view.StillUnknown? { CrashKept(s, s', t); } else { Moved(s, s', t, s'.threads[t]); }
  }

  lemma AskedControl(s: State, s': State, t: Tid, view: DispatchView)
    requires AskControl(s, s', t, view)
    ensures t in s.threads && s.threads[t].Resolving?
    ensures view.StillUnknown? ==> s' == Stop(s, t)
    ensures !view.StillUnknown? ==>
              && t in s'.threads && s' == Goto(s, t, s'.threads[t]) && s'.threads[t].Settling?
              && s'.threads[t].call == s.threads[t].call
                  && (s'.threads[t].state.Succeeded? || s'.threads[t].state.Failed?)
  {
  }

  // ---------------------------------------------------------------- steps that change tables or history

  /** A step that writes is taken with its thread set aside: the thread stops, the write
      happens, and the thread goes on from its new point. */
  lemma Resumed(s: State, s1: State, s': State, t: Tid, pc: Pc)
    requires Inv(s1) && Evolves(Stop(s, t), s1, t) && t !in s1.threads && t < s1.nextTid
    requires ThreadOk(s1, t, pc) && s' == Goto(s1, t, pc)
    ensures Kept(s, s', t)
  {
    ThreadOkFrame(s1, s', t, pc);
    QuietKept(s1, s', t);
    EvolvesFrame(s, s1, s', t);
  }

  lemma Ended(s: State, s': State, t: Tid)
    requires Inv(s') && Evolves(Stop(s, t), s', t)
    ensures Kept(s, s', t)
  {
    EvolvesFrame(s, s', s', t);
  }

  lemma EvolvesFrame(s: State, s1: State, s': State, t: Tid)
    requires Evolves(Stop(s, t), s1, t) && s' == s1.(threads := s'.threads)
    ensures Evolves(s, s', t)
  {
    assert CallsEvolve(s, s');
    assert GrantsEvolve(s.db, s'.db);
    assert HistoryEvolves(s, s', t);
  }

  /** The thread set aside. */
  lemma SetAside(s: State, t: Tid)
    requires Inv(s) && t in s.threads
    ensures Inv(Stop(s, t)) && t !in Stop(s, t).threads && t < s.nextTid && ThreadOk(s, t, s.threads[t])
    ensures ThreadOk(Stop(s, t), t, s.threads[t])
  {
    CrashKept(s, Stop(s, t), t);
    ThreadOkFrame(s, Stop(s, t), t, s.threads[t]);
  }

  // ---------------------------------------------------------------- Control

  /** Control records a dispatch; at most `holder` learns of the permission. */
  lemma DispatchRecorded(s: State, s': State, actor: Tid, c: Id, d: Id, holder: Option<Tid>)
    requires Inv(s) && actor !in s.threads && c !in s.control && FreshDispatch(s, d)
    requires holder.Some? ==> holder.value < s.nextTid
    requires s' == s.(control := s.control[c := Dispatch(d, holder)])
    ensures Kept(s, s', actor)
  {
    hide ThreadOk, CallOk, ReportsOk, SendsOk, GrantsOk;
    assert Evolves(s, s', actor);
    CallsKept(s, s', actor);
    HistoryKept(s, s', actor);
    ThreadsKept(s, s', actor);
  }

  lemma ControlRecordsKept(s: State, s': State, c: Id, d: Id)
    requires Inv(s) && ControlRecords(s, s', c, d)
    ensures Kept(s, s', s.nextTid)
  {
    DispatchRecorded(s, s', s.nextTid, c, d, None);
  }

  lemma AdmitKept(s: State, s': State, t: Tid, d: Id, verdict: Verdict)
    requires Inv(s) && Admit(s, s', t, d, verdict)
    ensures Kept(s, s', t)
  {
    hide Inv;
    SetAside(s, t);
    var Admitting(c, row) := s.threads[t];
    var s0 := Stop(s, t);
    var s1 := s0;
    if c !in s.control {
      var holder := if verdict.Permitted? then Some(t) else None;
      s1 := s0.(control := s0.control[c := Dispatch(d, holder)]);
      DispatchRecorded(s0, s1, t, c, d, holder);
    } else {
      TickKept(s0, s1, 0);
    }
    var pc := Recording(c, row, d, verdict);
    assert s' == Goto(s1, t, pc) by { assert s'.threads == s1.threads[t := pc]; }
    Resumed(s, s1, s', t, pc);
  }

  // ---------------------------------------------------------------- one row

  /** One row moves, with its entries in the history. */
  predicate RowStep(s: State, s': State, actor: Tid, c: Id) {
    && c in s.db.calls && c in s'.db.calls
    && s' == s.(db := s.db.(calls := s.db.calls[c := s'.db.calls[c]]), marks := s'.marks, exits := s'.exits,
                early := s'.early)
    && Advances(s.db.calls[c], s'.db.calls[c])
    && (s'.marks == s.marks
        || (c !in s.marks && c in s'.marks && s'.marks[c].sender == actor && s'.marks == s.marks[c := s'.marks[c]]
            && s.db.calls[c].grant in s.db.grants && s.db.grants[s.db.calls[c].grant].Executable(s.now)))
    && (s'.exits == s.exits || (c !in s.exits && c in s'.exits && s'.exits == s.exits[c := s'.exits[c]]))
    && (s'.early == s.early || (c in s.risky && s'.early == s.early + {c}))
  }

  lemma RowEvolves(s: State, s': State, actor: Tid, c: Id)
    requires RowStep(s, s', actor, c)
    ensures Evolves(s, s', actor)
  {
  }

  lemma RowCalls(s: State, s': State, actor: Tid, c: Id)
    requires CallsOk(s) && RowStep(s, s', actor, c) && CallOk(s', c) && Evolves(s, s', actor)
    ensures CallsOk(s')
  {
    hide Evolves, CallOk, RowOk, Advances;
    forall c' | c' in s'.db.calls ensures CallOk(s', c') {
      if c' != c { CallStable(s, s', actor, c'); }
    }
  }

  lemma RowMoved(s: State, s': State, actor: Tid, c: Id)
    requires Inv(s) && actor !in s.threads && RowStep(s, s', actor, c) && CallOk(s', c)
    ensures Kept(s, s', actor)
  {
    hide Evolves, CallOk, ThreadOk, Advances, CallsOk, GrantsOk, ControlOk, ReportsOk, SendsOk;
    RowEvolves(s, s', actor, c);
    RowCalls(s, s', actor, c);
    OthersKept(s, s');
    HistoryKept(s, s', actor);
    ThreadsKept(s, s', actor);
  }

  /** A thread whose write took effect, or did not, stops or goes on. */
  lemma Finish(s: State, s1: State, s': State, t: Tid)
    requires Inv(s) && t in s.threads && t !in s1.threads && t < s1.nextTid
    requires Kept(Stop(s, t), s1, t)
    requires s' == s1 || (t in s'.threads && s' == Goto(s1, t, s'.threads[t]) && ThreadOk(s1, t, s'.threads[t]))
    ensures Kept(s, s', t)
  {
    hide Inv, ThreadOk, Evolves;
    if s' == s1 { Ended(s, s', t); } else { Resumed(s, s1, s', t, s'.threads[t]); }
  }

  /** Nothing was written. */
  lemma Unwritten(s: State, t: Tid)
    requires Inv(s) && t in s.threads
    ensures Kept(Stop(s, t), Stop(s, t), t)
  {
    SetAside(s, t);
    QuietKept(Stop(s, t), Stop(s, t), t);
  }

  lemma InvCall(s: State, c: Id)
    requires Inv(s) && c in s.db.calls
    ensures CallOk(s, c)
  {
  }

  lemma AdmissionRow(s: State, s': State, actor: Tid, c: Id, state: CallState, d: Id, code: Code)
    requires c in s.db.calls && CallOk(s, c) && s.db.calls[c].state == Accepted
        && (state == Admitted || state == Denied)
    requires c in s.control && s.control[c].id == d
    requires s' == WithCalls(s, Sql.SetAdmission(s.db.calls, c, state, d, code, s.now).calls)
    ensures RowStep(s, s', actor, c) && CallOk(s', c)
  {
    hide WasSent;
  }

  lemma RecordAdmissionKept(s: State, s': State, t: Tid, wire: Wire)
    requires Inv(s) && RecordAdmission(s, s', t, wire)
    ensures Kept(s, s', t)
  {
    hide Inv, Kept, CallOk, RowStep;
    SetAside(s, t);
    var Recording(c, row, d, verdict) := s.threads[t];
    var s0 := Stop(s, t);
    var u := Sql.SetAdmission(s.db.calls, c, if verdict.Refusal? then Denied else Admitted, d,
                              if verdict.Refusal? then verdict.code else NoCode, s.now);
    var s1 := if wire == LostBefore then s0 else WithCalls(s0, u.calls);
    if wire != LostBefore && u.changed == 1 {
      InvCall(s0, c);
      AdmissionRow(s0, s1, t, c, if verdict.Refusal? then Denied else Admitted, d,
                   if verdict.Refusal? then verdict.code else NoCode);
      RowMoved(s0, s1, t, c);
    } else {
      Unwritten(s, t);
      assert s1 == s0;
    }
    assert s1.threads == s0.threads;
    assert t in s'.threads ==> s'.threads == s1.threads[t := s'.threads[t]];
    Finish(s, s1, s', t);
  }

  // ---------------------------------------------------------------- the marker

  lemma MarkRow(s: State, s': State, t: Tid, c: Id, bound: Time)
    requires c in s.db.calls && CallOk(s, c) && s.db.calls[c].state == Admitted
    requires s.db.calls[c].grant in s.db.grants && s.db.grants[s.db.calls[c].grant].Executable(s.now)
    requires bound <= s.now + s.opts.sendTimeout && bound <= s.db.calls[c].deadline
    requires s' == WithCalls(s, Sql.SetMarker(s.db.calls, c, s.now).calls).(marks := s.marks[c := Marker(t, bound)])
    ensures RowStep(s, s', t, c) && CallOk(s', c)
    ensures s'.db.calls[c].marker == Some(s.now)
  {
    hide WasSent;
  }

  /** A call that is not marked was not sent. */
  lemma UnmarkedUnsent(s: State, c: Id)
    requires Inv(s) && c !in s.marks
    ensures !WasSent(s, c)
  {
  }

  lemma MarkKept(s: State, s': State, t: Tid, wire: Wire)
    requires Inv(s) && Mark(s, s', t, wire)
    ensures Kept(s, s', t)
  {
    hide Inv, Kept, CallOk, RowStep, WasSent;
    SetAside(s, t);
    var Marking(c, row, bound) := s.threads[t];
    var s0 := Stop(s, t);
    var u := Sql.MarkCall(s.db, c, row, s.now);
    var s1 := if wire == LostBefore
        || u.changed != 1 then s0 else WithCalls(s0, u.calls).(marks := s.marks[c := Marker(t, bound)]);
    if wire != LostBefore && u.changed == 1 {
      InvCall(s0, c);
      MarkRow(s0, s1, t, c, bound);
      RowMoved(s0, s1, t, c);
      CallMarked(s0, c);
      UnmarkedUnsent(s0, c);
      SendsFrame(s0, s1, c);
    } else {
      Unwritten(s, t);
    }
    assert s1.threads == s0.threads;
    assert t in s'.threads ==> s'.threads == s1.threads[t := s'.threads[t]];
    Finish(s, s1, s', t);
  }

  lemma CallMarked(s: State, c: Id)
    requires c in s.db.calls && CallOk(s, c) && s.db.calls[c].state == Admitted
    ensures c !in s.marks && c !in s.exits
  {
  }

  lemma SendsFrame(s: State, s': State, c: Id)
    requires s'.sends == s.sends
    ensures WasSent(s', c) == WasSent(s, c)
  {
  }

  // ---------------------------------------------------------------- the end of the unreported part

  /** The row a call is reported as: the first reportable state. */
  predicate LeavesAs(was: Call, next: Call) {
    && (was.state == Sent || was.state == Admitted)
    && next == was.(state := next.state, code := next.code, usage := next.usage, updatedAt := next.updatedAt)
    && (if was.state == Sent then next.state.Succeeded? || next.state.Failed?
        || next.state.Unknown? else next.state == Canceled)
    && UsageFits(next)
  }

  lemma LeftRow(s: State, s': State, t: Tid, c: Id, u: Sql.CallUpdate)
    requires c in s.db.calls && CallOk(s, c) && u.changed == 1 && c in u.calls && u.calls == s.db.calls[c := u.calls[c]]
    requires LeavesAs(s.db.calls[c], u.calls[c]) && (u.calls[c].usage == Some(1) ==> WasSent(s, c))
    requires s' == Leave(s, t, c, u)
    ensures RowStep(s, s', t, c) && CallOk(s', c)
    ensures c in s'.exits && s'.exits[c].mover == t
  {
    SendsFrame(s, s', c);
  }

  lemma LeftKept(s: State, s': State, t: Tid, c: Id, u: Sql.CallUpdate, wire: Wire)
    requires Inv(s) && t in s.threads && Left(s, s', t, c, u, wire) && c in s.db.calls
    requires u == Sql.CallUpdate(s.db.calls, 0)
          || (u.changed == 1 && c in u.calls && u.calls == s.db.calls[c := u.calls[c]]
              && LeavesAs(s.db.calls[c], u.calls[c])
              && (u.calls[c].usage == Some(1) ==> WasSent(s, c)))
    ensures Kept(s, s', t)
  {
    hide Inv, Kept, CallOk, RowStep, WasSent, UsageFits;
    SetAside(s, t);
    var s0 := Stop(s, t);
    var s1 := if wire == LostBefore then s0 else Leave(s0, t, c, u);
    SendsFrame(s, s0, c);
    if wire != LostBefore && u.changed == 1 {
      InvCall(s0, c);
      LeftRow(s0, s1, t, c, u);
      RowMoved(s0, s1, t, c);
      Unreported(s0, c);
    } else {
      Unwritten(s, t);
      assert s1 == s0;
    }
    assert s1.threads == s0.threads;
    assert t in s'.threads ==> s'.threads == s1.threads[t := s'.threads[t]];
    Finish(s, s1, s', t);
  }

  /** Nothing was filed for a call that never became reportable. */
  lemma Unreported(s: State, c: Id)
    requires Inv(s) && c in s.db.calls && (s.db.calls[c].state == Sent || s.db.calls[c].state == Admitted)
    ensures NoLateReport(s, c)
  {
    assert CallOk(s, c);
    assert forall f | f in s.reports :: FiledOk(s, f);
  }

  lemma ConcludeKept(s: State, s': State, t: Tid, wire: Wire)
    requires Inv(s) && Conclude(s, s', t, wire)
    ensures Kept(s, s', t)
  {
    hide Inv, Kept, WasSent, Left;
    SetAside(s, t);
    var Concluding(c, state, code) := s.threads[t];
    LeftKept(s, s', t, c, Sql.SetOutcome(s.db.calls, c, state, code, if state == Unknown then None else Some(1), Sent,
                                         s.now), wire);
  }

  lemma CancelKept(s: State, s': State, t: Tid, wire: Wire)
    requires Inv(s) && Cancel(s, s', t, wire)
    ensures Kept(s, s', t)
  {
    hide Inv, Kept, WasSent, Left;
    SetAside(s, t);
    var Canceling(c, code) := s.threads[t];
    LeftKept(s, s', t, c, Sql.SetOutcome(s.db.calls, c, Canceled, code, Some(0), Admitted, s.now), wire);
  }

  lemma AbandonKept(s: State, s': State, t: Tid, wire: Wire)
    requires Inv(s) && Abandon(s, s', t, wire)
    ensures Kept(s, s', t)
  {
    hide Inv, Kept, WasSent, Left;
    SetAside(s, t);
    var c := s.threads[t].call;
    InvCall(s, c);
    LeftKept(s, s', t, c, Sql.SetAbandoned(s.db.calls, c, OutcomeUnknown, SentAge(s.opts), s.now), wire);
  }

  lemma ShutDownKept(s: State, s': State, t: Tid, wire: Wire)
    requires Inv(s) && ShutDown(s, s', t, wire)
    ensures Kept(s, s', t)
  {
    hide Inv, Kept, WasSent, Left;
    SetAside(s, t);
    var c := s.threads[t].call;
    LeftKept(s, s', t, c, Sql.SetOutcome(s.db.calls, c, Unknown, OutcomeUnknown, None, Sent, s.now), wire);
  }

  // ---------------------------------------------------------------- observing and settling

  lemma AcknowledgeRow(s: State, s': State, t: Tid, c: Id, sequence: nat)
    requires c in s.db.calls && CallOk(s, c) && s.db.calls[c].observations == sequence && c in s.exits
    requires s' == WithCalls(s, Sql.SetObserved(s.db.calls, c, sequence, s.now).calls)
    ensures RowStep(s, s', t, c) && CallOk(s', c)
  {
    SendsFrame(s, s', c);
  }

  lemma AcknowledgeKept(s: State, s': State, t: Tid, wire: Wire)
    requires Inv(s) && Acknowledge(s, s', t, wire)
    ensures Kept(s, s', t)
  {
    hide Inv, Kept, CallOk, RowStep, WasSent;
    SetAside(s, t);
    var Acknowledging(c, row, operator) := s.threads[t];
    var s0 := Stop(s, t);
    var u := Sql.SetObserved(s.db.calls, c, row.observations, s.now);
    var s1 := if wire == LostBefore then s0 else WithCalls(s0, u.calls);
    if wire != LostBefore && u.changed == 1 {
      InvCall(s0, c);
      AcknowledgeRow(s0, s1, t, c, row.observations);
      RowMoved(s0, s1, t, c);
    } else {
      Unwritten(s, t);
      assert s1 == s0;
    }
    assert s1.threads == s0.threads;
    assert t in s'.threads ==> s'.threads == s1.threads[t := s'.threads[t]];
    Finish(s, s1, s', t);
  }

  lemma SettleRow(s: State, s': State, t: Tid, c: Id, state: CallState, code: Code)
    requires c in s.db.calls && CallOk(s, c) && s.db.calls[c].state == Unknown && (state.Succeeded? || state.Failed?)
        && SettlerOk(s, c)
    requires s' == WithCalls(s, Sql.SetOutcome(s.db.calls, c, state, code, None, Unknown, s.now).calls).(
                     early := if s.db.calls[c].observedAt.None? then s.early + {c} else s.early)
    ensures RowStep(s, s', t, c) && CallOk(s', c)
  {
    SendsFrame(s, s', c);
  }

  lemma SettleKept(s: State, s': State, t: Tid, wire: Wire)
    requires Inv(s) && Settle(s, s', t, wire)
    ensures Kept(s, s', t)
  {
    hide Inv, Kept, CallOk, RowStep, WasSent;
    SetAside(s, t);
    var Settling(c, row, state, code) := s.threads[t];
    var s0 := Stop(s, t);
    var u := Sql.SetOutcome(s.db.calls, c, state, code, None, Unknown, s.now);
    var s1 := if wire == LostBefore || u.changed != 1 then s0
              else WithCalls(s0, u.calls).(early := if s.db.calls[c].observedAt.None? then s.early + {c} else s.early);
    if wire != LostBefore && u.changed == 1 {
      InvCall(s0, c);
      SettleRow(s0, s1, t, c, state, code);
      RowMoved(s0, s1, t, c);
    } else {
      Unwritten(s, t);
    }
    assert s' == s1;
    Finish(s, s1, s', t);
  }

  // ---------------------------------------------------------------- the send and the report

  lemma SendRecorded(s: State, s': State, t: Tid, c: Id, reply: Reply)
    requires Inv(s) && t !in s.threads
    requires c in s.db.calls && Holds(s, t, c) && c in s.marks && s.marks[c].sender == t && !WasSent(s, c)
    requires s' == s.(sends := s.sends + [SendEvent(c, t, reply)])
    ensures Kept(s, s', t) && WasSent(s', c)
    ensures forall state, code | Means(reply, state, code) :: SentAs(s', t, c, state, code)
  {
    hide ThreadOk, CallOk, ReportsOk, GrantsOk, ControlOk;
    assert s'.sends[|s.sends|] == SendEvent(c, t, reply);
    assert Evolves(s, s', t);
    OthersKept(s, s');
    CallsKept(s, s', t);
    ReportsKept(s, s', t);
    ThreadsKept(s, s', t);
  }

  lemma ReportsKept(s: State, s': State, actor: Tid)
    requires ReportsOk(s) && Evolves(s, s', actor) && s'.reports == s.reports
    ensures ReportsOk(s')
  {
    forall f | f in s'.reports ensures FiledOk(s', f) { assert FiledOk(s, f); }
  }

  lemma SendKept(s: State, s': State, t: Tid, reply: Reply)
    requires Inv(s) && Send(s, s', t, reply)
    ensures Kept(s, s', t)
  {
    hide Inv, Kept, WasSent, SentAs;
    SetAside(s, t);
    var c := s.threads[t].call;
    var s0 := Stop(s, t);
    var s1 := s0.(sends := s.sends + [SendEvent(c, t, reply)]);
    SendRecorded(s0, s1, t, c, reply);
    assert s'.threads == s1.threads[t := s'.threads[t]];
    Finish(s, s1, s', t);
  }

  lemma ReportFiled(s: State, s': State, t: Tid, c: Id, row: Call)
    requires Inv(s) && t !in s.threads && Read(s, c, row) && ObserverOk(s, t, c, row)
    requires s' == s.(reports := s.reports + {Filed(c, ReportOf(row))})
    ensures Kept(s, s', t)
  {
    hide ThreadOk, CallOk, SendsOk, GrantsOk, ControlOk;
    assert Evolves(s, s', t);
    OthersKept(s, s');
    CallsKept(s, s', t);
    SendsKept(s, s', t);
    ThreadsKept(s, s', t);
    forall f | f in s'.reports ensures FiledOk(s', f) { assert f in s.reports ==> FiledOk(s, f); }
  }

  lemma SendsKept(s: State, s': State, actor: Tid)
    requires SendsOk(s) && Evolves(s, s', actor) && s'.sends == s.sends
    ensures SendsOk(s')
  {
  }

  lemma ObserveKept(s: State, s': State, t: Tid, answered: bool)
    requires Inv(s) && Observe(s, s', t, answered)
    ensures Kept(s, s', t)
  {
    hide Inv, Kept;
    SetAside(s, t);
    var Observing(c, row, operator) := s.threads[t];
    var s0 := Stop(s, t);
    var s1 := s0.(reports := s.reports + {Filed(c, ReportOf(row))});
    ReportFiled(s0, s1, t, c, row);
    assert t in s'.threads ==> s'.threads == s1.threads[t := s'.threads[t]];
    Finish(s, s1, s', t);
  }

  // ---------------------------------------------------------------- grants and descriptors

  /** A write to the grants and descriptors only. */
  lemma GrantsMoved(s: State, s': State, actor: Tid)
    requires Inv(s) && actor !in s.threads
    requires s' == s.(db := s'.db) && s'.db.calls == s.db.calls
    requires GrantsEvolve(s.db, s'.db) && GrantsOk(s'.db)
    requires forall g | g in s.db.grants && s'.db.grants[g].state == Revoked && s.db.grants[g].state != Revoked ::
               forall c | c in s.db.calls && s.db.calls[c].grant == g :: s.db.calls[c].Terminal()
    ensures Kept(s, s', actor)
  {
    hide ThreadOk, CallOk, SendsOk, ReportsOk, GrantsOk, LaterGrant;
    assert CallsEvolve(s, s') by { SameRowsEvolve(s, s'); }
    assert Evolves(s, s', actor);
    CallsKept(s, s', actor);
    HistoryKept(s, s', actor);
    ThreadsKept(s, s', actor);
  }

  lemma SameRowsEvolve(s: State, s': State)
    requires s'.db.calls == s.db.calls
    ensures CallsEvolve(s, s')
  {
  }

  lemma DiscoverOk(db: Db, server: Id, tenant: Id, digest: Id, methods: set<string>, actor: Id)
    requires GrantsOk(db)
    ensures GrantsOk(Sql.Discover(db, server, tenant, digest, methods, actor))
    ensures GrantsEvolve(db, Sql.Discover(db, server, tenant, digest, methods, actor))
  {
    var db' := Sql.Discover(db, server, tenant, digest, methods, actor);
    forall g | g in db'.grants ensures GrantOk(db', db'.grants[g]) { assert GrantOk(db, db.grants[g]); }
    forall k | k in db'.descriptors ensures DescriptorOk(db', k) { assert k in db.descriptors ==> DescriptorOk(db, k); }
  }

  lemma ReviewOk(db: Db, key: DescriptorKey, tenant: Id, actor: Id, digest: Id, approve: bool)
    requires GrantsOk(db)
    ensures GrantsOk(Sql.Review(db, key, tenant, actor, digest, approve))
    ensures GrantsEvolve(db, Sql.Review(db, key, tenant, actor, digest, approve))
  {
    var db' := Sql.Review(db, key, tenant, actor, digest, approve);
    forall g | g in db'.grants ensures GrantOk(db', db'.grants[g]) { assert GrantOk(db, db.grants[g]); }
    forall k | k in db'.descriptors ensures DescriptorOk(db', k) { assert DescriptorOk(db, k); }
  }

  /** A withdrawn revision leaves no pending or active grant behind, in the same commit. */
  lemma DisableOk(db: Db, key: DescriptorKey)
    requires GrantsOk(db) && key in db.descriptors
    ensures GrantsOk(Sql.DisableLocked(db, key))
    ensures Sql.DisableLocked(db, key).descriptors[key].state == Disabled
    ensures forall g | g in db.grants && KeyOfGrant(db.grants[g]) == key :: !Sql.DisableLocked(db, key).grants[g].Live()
    ensures forall g | g in db.grants :: LaterGrant(db.grants[g], Sql.DisableLocked(db, key).grants[g])
  {
    var db' := Sql.DisableLocked(db, key);
    forall g | g in db'.grants ensures GrantOk(db', db'.grants[g]) { assert GrantOk(db, db.grants[g]); }
    forall k | k in db'.descriptors ensures DescriptorOk(db', k) { assert DescriptorOk(db, k); }
  }

  /** One grant row is written. */
  lemma OneGrantOk(db: Db, g: Id, next: Grant)
    requires GrantsOk(db) && GrantOk(db, next)
    ensures GrantsOk(db.(grants := db.grants[g := next]))
  {
    var db' := db.(grants := db.grants[g := next]);
    forall h | h in db'.grants ensures GrantOk(db', db'.grants[h]) { assert h != g ==> GrantOk(db, db.grants[h]); }
    forall k | k in db'.descriptors ensures DescriptorOk(db', k) { assert DescriptorOk(db, k); }
  }

  /** A management transaction keeps the bindings, moves grants and revisions forward and revokes nothing finally. */
  predicate ManagedFrom(db: Db, db': Db) {
    db'.calls == db.calls && forall g | g in db.grants && g in db'.grants && db'.grants[g].state == Revoked ::
        db.grants[g].state == Revoked
  }

  lemma WithdrawalOk(db: Db, key: DescriptorKey)
    requires GrantsOk(db) && key in db.descriptors
    ensures var db' := Sql.DisableLocked(db, key); GrantsOk(db') && GrantsEvolve(db, db') && ManagedFrom(db, db')
  {
    hide GrantsOk;
    DisableOk(db, key);
  }

  lemma OneGrantManaged(db: Db, g: Id, next: Grant)
    requires GrantsOk(db) && GrantOk(db, next) && next.state != Revoked
    requires if g in db.grants then LaterGrant(db.grants[g], next) else next.state == Pending
    ensures var db' := db.(grants := db.grants[g := next]);
      GrantsOk(db') && GrantsEvolve(db, db') && ManagedFrom(db, db')
  {
    hide GrantsOk;
    OneGrantOk(db, g, next);
  }

  lemma ManagedOk(db: Db, m: Management, now: Time)
    requires GrantsOk(db)
    ensures var db' := Managed(db, m, now); GrantsOk(db') && GrantsEvolve(db, db') && ManagedFrom(db, db')
  {
    hide GrantsOk, GrantsEvolve, ManagedFrom, Sql.DisableLocked;
    var db' := Managed(db, m, now);
    if db' == db {
      assert GrantsEvolve(db, db') && ManagedFrom(db, db') by { UnmanagedOk(db); }
    } else {
      match m
      case Discover(server, tenant, digest, methods, actor) =>
        DiscoverOk(db, server, tenant, digest, methods, actor);
        assert ManagedFrom(db, db') by { SameGrantsManaged(db, db'); }
      case Review(key, tenant, actor, digest, approve) =>
        ReviewOk(db, key, tenant, actor, digest, approve);
        assert ManagedFrom(db, db') by { SameGrantsManaged(db, db'); }
      case Disable(key, tenant) => WithdrawalOk(db, key);
      case AcceptDrift(key) => WithdrawalOk(db, key);
      case CreateGrant(g, req) => OneGrantManaged(db, g, db'.grants[g]);
      case Revoke(g, tenant, expected, reason) => OneGrantManaged(db, g, db'.grants[g]);
      case Expire(g) => OneGrantManaged(db, g, db'.grants[g]);
    }
  }

  lemma UnmanagedOk(db: Db)
    ensures GrantsEvolve(db, db) && ManagedFrom(db, db)
  {
  }

  lemma SameGrantsManaged(db: Db, db': Db)
    requires db'.calls == db.calls && db'.grants == db.grants
    ensures ManagedFrom(db, db')
  {
  }

  lemma ManageKept(s: State, s': State, m: Management)
    requires Inv(s) && Manage(s, s', m)
    ensures Kept(s, s', s.nextTid)
  {
    hide ThreadOk, CallsOk, SendsOk, ReportsOk, GrantsOk, LaterGrant, Managed;
    ManagedOk(s.db, m, s.now);
    GrantsMoved(s, s', s.nextTid);
  }

  lemma CommitRegisterKept(s: State, s': State, t: Tid, wire: Wire)
    requires Inv(s) && CommitRegister(s, s', t, wire)
    ensures Kept(s, s', t)
  {
    hide Inv, Kept, GrantsOk;
    SetAside(s, t);
    var g := s.threads[t].grant;
    var s0 := Stop(s, t);
    if wire == LostBefore || Sql.RegisterGrant(s.db, g, s.threads[t].answer) == s.db {
      Unwritten(s, t);
      assert s' == s0;
      Finish(s, s0, s', t);
    } else {
      InvGrants(s, g);
      OneGrantOk(s.db, g, s'.db.grants[g]);
      assert s' == s0.(db := s'.db);
      GrantsMoved(s0, s', t);
      Finish(s, s', s', t);
    }
  }

  lemma InvGrants(s: State, g: Id)
    requires Inv(s) && g in s.db.grants
    ensures GrantsOk(s.db) && GrantOk(s.db, s.db.grants[g])
  {
  }

  /** When the count found none open, every call of the grant is terminal. */
  lemma NoneOpenMeansTerminal(s: State, g: Id)
    requires Inv(s) && g in s.db.grants && Sql.NoOpenCall(s.db.calls, g, s.db.grants[g].revision)
    ensures forall c | c in s.db.calls && s.db.calls[c].grant == g :: s.db.calls[c].Terminal()
  {
    forall c | c in s.db.calls && s.db.calls[c].grant == g ensures s.db.calls[c].Terminal() {
      assert CallOk(s, c);
    }
  }

  lemma CommitBarrierKept(s: State, s': State, t: Tid, wire: Wire)
    requires Inv(s) && CommitBarrier(s, s', t, wire)
    ensures Kept(s, s', t)
  {
    hide Inv, Kept, GrantsOk;
    SetAside(s, t);
    var Finalizing(g, r, b, noneOpen) := s.threads[t];
    var s0 := Stop(s, t);
    if wire == LostBefore || s.db.grants[g].state != Revoking {
      Unwritten(s, t);
      assert s' == s0;
      Finish(s, s0, s', t);
    } else {
      InvGrants(s, g);
      OneGrantOk(s.db, g, s'.db.grants[g]);
      if noneOpen { NoneOpenMeansTerminal(s, g); }
      assert s' == s0.(db := s'.db);
      GrantsMoved(s0, s', t);
      Finish(s, s', s', t);
    }
  }

  // ---------------------------------------------------------------- creating a call

  lemma CallInserted(s: State, s': State, t: Tid, c: Id, req: Sql.CallRequest, at: Time)
    requires Inv(s) && t !in s.threads && c !in s.db.calls && Sql.CreateAdmits(s.db, req, at)
    requires s' == s.(db := Sql.CreateCall(s.db, c, req, at, s.now))
    ensures Kept(s, s', t)
  {
    hide ThreadOk, SendsOk, ReportsOk, GrantsOk, ControlOk, CallsOk, Sql.CreateAdmits;
    InsertEvolves(s, s', t, c, req, at);
    assert CallsOk(s') by {
      assert CallOk(s', c) by { NewCallOk(s, s', c, req, at); }
      InsertCalls(s, s', t, c, req, at);
    }
    hide CallOk, Evolves;
    OthersKept(s, s');
    HistoryKept(s, s', t);
    ThreadsKept(s, s', t);
  }

  lemma InsertCalls(s: State, s': State, t: Tid, c: Id, req: Sql.CallRequest, at: Time)
    requires CallsOk(s) && c !in s.db.calls && s' == s.(db := Sql.CreateCall(s.db, c, req, at, s.now))
    requires Evolves(s, s', t) && (c in s'.db.calls ==> CallOk(s', c))
    ensures CallsOk(s')
  {
    hide Sql.CreateAdmits, CallOk;
    forall c' | c' in s'.db.calls ensures CallOk(s', c') {
      if c' != c { CallStable(s, s', t, c'); }
    }
  }

  lemma InsertEvolves(s: State, s': State, t: Tid, c: Id, req: Sql.CallRequest, at: Time)
    requires c !in s.db.calls && Sql.CreateAdmits(s.db, req, at)
    requires s' == s.(db := Sql.CreateCall(s.db, c, req, at, s.now))
    ensures Evolves(s, s', t)
  {
  }

  lemma NewCallOk(s: State, s': State, c: Id, req: Sql.CallRequest, at: Time)
    requires HistoryOk(s) && c !in s.db.calls && Sql.CreateAdmits(s.db, req, at)
    requires s' == s.(db := Sql.CreateCall(s.db, c, req, at, s.now))
    ensures CallOk(s', c)
  {
    hide WasSent;
    assert c !in s.marks && c !in s.exits;
  }

  lemma CommitCreateKept(s: State, s': State, t: Tid, wire: Wire)
    requires Inv(s) && CommitCreate(s, s', t, wire)
    ensures Kept(s, s', t)
  {
    hide Inv, Kept, Sql.CreateAdmits;
    SetAside(s, t);
    var Creating(c, req, at) := s.threads[t];
    var s0 := Stop(s, t);
    var s1 := if wire == LostBefore then s0 else s0.(db := Sql.CreateCall(s.db, c, req, at, s.now));
    if wire != LostBefore && c !in s.db.calls && Sql.CreateAdmits(s.db, req, at) {
      CallInserted(s0, s1, t, c, req, at);
    } else {
      Unwritten(s, t);
      assert s1 == s0;
    }
    assert s1.threads == s0.threads;
    assert t in s'.threads ==> s'.threads == s1.threads[t := s'.threads[t]];
    Finish(s, s1, s', t);
  }

  // ---------------------------------------------------------------- every step

  /** The thread a step belongs to; an environment step belongs to none that exists. */
  function Actor(s: State, step: Step): Tid {
    match step
    case STick(_) | SControlRecords(_, _) | SManage(_) | SStartRegister(_) | SStartBarrier(_) | SStartCreate(_, _)
       | SStartReconcile(_, _) | SStartOperator(_) | SStartShutdown(_) => s.nextTid
    case _ => step.t
  }

  lemma InitOk(s: State)
    requires Init(s)
    ensures Inv(s)
  {
  }

  lemma EarlyStepKept(s: State, step: Step, s': State)
    requires Inv(s) && Next(s, step, s') && Early(step)
    ensures Kept(s, s', Actor(s, step))
  {
    hide Inv, Kept, Tick, Crash, ControlRecords, Manage, StartRegister, AnswerRegister, CommitRegister, StartBarrier,
         AnswerBarrier, CountOpen,
         CommitBarrier, StartCreate, CommitCreate, Load, Admit, RecordAdmission, StartSend, Open, Mark, Send, Conclude,
         Cancel, StartReconcile,
         StartOperator, Abandon, StartShutdown, ShutDown, Reload, Observe, Acknowledge, AskControl, Settle;
    match step
    case STick(d) => TickKept(s, s', d);
    case SCrash(t) => CrashKept(s, s', t);
    case SControlRecords(c, d) => ControlRecordsKept(s, s', c, d);
    case SManage(m) => ManageKept(s, s', m);
    case SStartRegister(g) => StartRegisterKept(s, s', g);
    case SAnswerRegister(t, answer) => AnswerRegisterKept(s, s', t, answer);
    case SCommitRegister(t, wire) => CommitRegisterKept(s, s', t, wire);
    case SStartBarrier(g) => StartBarrierKept(s, s', g);
    case SAnswerBarrier(t, b) => AnswerBarrierKept(s, s', t, b);
    case SCountOpen(t) => CountOpenKept(s, s', t);
    case SCommitBarrier(t, wire) => CommitBarrierKept(s, s', t, wire);
    case SStartCreate(c, req) => StartCreateKept(s, s', c, req);
    case SCommitCreate(t, wire) => CommitCreateKept(s, s', t, wire);
    case SLoad(t) => LoadKept(s, s', t);
    case SAdmit(t, d, verdict) => AdmitKept(s, s', t, d, verdict);
    case SRecordAdmission(t, wire) => RecordAdmissionKept(s, s', t, wire);
    case _ =>
  }

  lemma LateStepKept(s: State, step: Step, s': State)
    requires Inv(s) && Next(s, step, s') && !Early(step)
    ensures Kept(s, s', Actor(s, step))
  {
    hide Inv, Kept, Tick, Crash, ControlRecords, Manage, StartRegister, AnswerRegister, CommitRegister, StartBarrier,
         AnswerBarrier, CountOpen,
         CommitBarrier, StartCreate, CommitCreate, Load, Admit, RecordAdmission, StartSend, Open, Mark, Send, Conclude,
         Cancel, StartReconcile,
         StartOperator, Abandon, StartShutdown, ShutDown, Reload, Observe, Acknowledge, AskControl, Settle;
    match step
    case SStartSend(t, readable) => StartSendKept(s, s', t, readable);
    case SOpen(t, refusal) => OpenKept(s, s', t, refusal);
    case SMark(t, wire) => MarkKept(s, s', t, wire);
    case SSend(t, reply) => SendKept(s, s', t, reply);
    case SConclude(t, wire) => ConcludeKept(s, s', t, wire);
    case SCancel(t, wire) => CancelKept(s, s', t, wire);
    case SStartReconcile(c, due) => StartReconcileKept(s, s', c, due);
    case SStartOperator(c) => StartOperatorKept(s, s', c);
    case SAbandon(t, wire) => AbandonKept(s, s', t, wire);
    case SStartShutdown(c) => StartShutdownKept(s, s', c);
    case SShutDown(t, wire) => ShutDownKept(s, s', t, wire);
    case SReload(t) => ReloadKept(s, s', t);
    case SObserve(t, answered) => ObserveKept(s, s', t, answered);
    case SAcknowledge(t, wire) => AcknowledgeKept(s, s', t, wire);
    case SAskControl(t, view) => AskControlKept(s, s', t, view);
    case SSettle(t, wire) => SettleKept(s, s', t, wire);
    case _ =>
  }


  lemma StepKept(s: State, step: Step, s': State)
    requires Inv(s) && Next(s, step, s')
    ensures Kept(s, s', Actor(s, step))
  {
    hide Inv, Kept, Next;
    if Early(step) { EarlyStepKept(s, step, s'); } else { LateStepKept(s, step, s'); }
  }

  /** Every state of every run keeps the invariant. */
  lemma {:induction false} RunInv(r: Run, i: nat)
    requires ValidRun(r) && i < |r.states|
    ensures Inv(r.states[i])
  {
    hide Inv, Evolves, Next;
    if i == 0 {
      InitOk(r.states[0]);
    } else {
      RunInv(r, i - 1);
      StepKept(r.states[i - 1], r.steps[i - 1], r.states[i]);
    }
  }
}
