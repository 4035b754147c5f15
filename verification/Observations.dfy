/** What Control is told, and when a marked call may be declared UNKNOWN. */
module Observations {
  import opened Basics
  import opened Rows
  import opened Protocol
  import opened Invariant
  import opened Preservation
  import Sql

  // ---------------------------------------------------------------- consistent reports

  /** Two reports under one (dispatch, sequence) are the same report, for any concurrent or stale
      observers, unless the call was settled from UNKNOWN before an observation was recorded. */
  lemma ReportsAgree(r: Run, i: nat, f: Filed, f': Filed)
    requires ValidRun(r) && i < |r.states| && f in r.states[i].reports && f' in r.states[i].reports
    requires f.report.dispatch == f'.report.dispatch && f.report.sequence == f'.report.sequence
    requires f.report.sequence == 0 ==> f.call !in r.states[i].early
    ensures f == f'
  {
    hide Next, Init, ThreadsOk, CallsOk;
    RunInv(r, i);
    assert FiledOk(r.states[i], f) && FiledOk(r.states[i], f');
  }

  /** The operator path on an UNKNOWN call whose outcome Control has not been told yet. */
  predicate RiskyOperator(s: State, step: Step) {
    step.SStartOperator? && step.call in s.db.calls && s.db.calls[step.call].state == Unknown
        && s.db.calls[step.call].observedAt.None?
  }

  lemma RiskFrameEarly(s: State, step: Step, s': State)
    requires Next(s, step, s') && Early(step)
    ensures s'.risky == s.risky
  {
    hide Managed, Sql.CreateAdmits, Sql.RegisterGrant, Sql.AdvanceGrant, Sql.NoOpenCall, FreshDispatch,
         Sql.SetAdmission, Sql.CreateCall;
  }

  lemma RiskFrameLate(s: State, step: Step, s': State)
    requires Next(s, step, s') && !step.SStartOperator? && !Early(step)
    ensures s'.risky == s.risky
  {
    hide ReportOf, Sql.SetOutcome, Sql.SetAbandoned, Sql.MarkCall, Eligible, SentAge, Left;
    forall t, c, u, wire | Left(s, s', t, c, u, wire) ensures s'.risky == s.risky { LeftRisk(s, s', t, c, u, wire); }
  }

  lemma LeftRisk(s: State, s': State, t: Tid, c: Id, u: Sql.CallUpdate, wire: Wire)
    requires Left(s, s', t, c, u, wire)
    ensures s'.risky == s.risky
  {
    hide ReportOf;
  }

  /** No other step takes the risk. */
  lemma RiskFrame(s: State, step: Step, s': State)
    requires Next(s, step, s') && !step.SStartOperator?
    ensures s'.risky == s.risky
  {
    hide Next;
    if Early(step) { RiskFrameEarly(s, step, s'); } else { RiskFrameLate(s, step, s'); }
  }

  lemma {:induction false} WithoutRisk(r: Run, i: nat)
    requires ValidRun(r) && i < |r.states|
    requires forall k | 0 <= k < i :: !RiskyOperator(r.states[k], r.steps[k])
    ensures r.states[i].risky == {}
  {
    hide Init;
    if i == 0 {
      assert r.states[0].risky == {} by { InitRisk(r.states[0]); }
    } else {
      WithoutRisk(r, i - 1);
      var s, step, s' := r.states[i - 1], r.steps[i - 1], r.states[i];
      assert Next(s, step, s');
      OperatorRisk(s, step, s');
    }
  }

  lemma InitRisk(s: State)
    requires Init(s)
    ensures s.risky == {}
  {
  }

  lemma OperatorRisk(s: State, step: Step, s': State)
    requires Next(s, step, s') && !RiskyOperator(s, step)
    ensures s'.risky == s.risky
  {
    if step.SStartOperator? {
      assert StartOperator(s, s', step.call);
    } else {
      hide Next;
      RiskFrame(s, step, s');
    }
  }

  /** As long as the operator path is never started on an UNKNOWN call that is not observed yet, no two
      reports under one (dispatch, sequence) ever differ in outcome or usage. */
  lemma ReportsConsistent(r: Run, i: nat)
    requires ValidRun(r) && i < |r.states|
    requires forall k | 0 <= k < i :: !RiskyOperator(r.states[k], r.steps[k])
    ensures forall f, f' | f in r.states[i].reports && f' in r.states[i].reports
              && f.report.dispatch == f'.report.dispatch && f.report.sequence == f'.report.sequence ::
                  f.report == f'.report
  {
    hide ValidRun;
    WithoutRisk(r, i);
    assert r.states[i].early == {} by { RunInv(r, i); }
    forall f, f' | f in r.states[i].reports && f' in r.states[i].reports
              && f.report.dispatch == f'.report.dispatch && f.report.sequence == f'.report.sequence
      ensures f.report == f'.report
    {
      ReportsAgree(r, i, f, f');
    }
  }

  // ---------------------------------------------------------------- and only then

  /** The steps from one state on. */
  ghost predicate Path(states: seq<State>, steps: seq<Step>) {
    && |states| == |steps| + 1
    && forall i :: 0 <= i < |steps| ==> Next(states[i], steps[i], states[i + 1])
  }

  lemma OperatorStarts(s: State, c: Id)
    requires c in s.db.calls && s.db.calls[c].observedAt.None?
    ensures s.db.calls[c].state == Unknown ==>
              Next(s, SStartOperator(c), Spawn(s.(risky := s.risky + {c}), Observing(c, s.db.calls[c], true)))
    ensures s.db.calls[c].state == Succeeded && s.db.calls[c].dispatch.Some? ==>
              Next(s, SStartOperator(c), Spawn(s, Observing(c, s.db.calls[c], false)))
  {
  }

  lemma ReportIsIssued(s: State, t: Tid, c: Id, row: Call, operator: bool)
    requires t in s.threads && s.threads[t] == Observing(c, row, operator) && row.Reportable() && row.dispatch.Some?
    ensures operator ==> Next(s, SObserve(t, false),
                              Goto(s.(reports := s.reports + {Filed(c, ReportOf(row))}), t, Resolving(c, row)))
    ensures Next(s, SObserve(t, true),
                 Goto(s.(reports := s.reports + {Filed(c, ReportOf(row))}), t, Acknowledging(c, row, operator)))
  {
  }

  lemma ControlSettles(s: State, t: Tid, c: Id, row: Call)
    requires t in s.threads && s.threads[t] == Resolving(c, row)
    ensures Next(s, SAskControl(t, ObservedAs(OutSucceeded)), Goto(s, t, Settling(c, row, Succeeded, NoCode)))
  {
  }

  lemma SettlesEarly(s: State, t: Tid, c: Id, row: Call)
    requires t in s.threads && s.threads[t] == Settling(c, row, Succeeded, NoCode)
    requires c in s.db.calls && s.db.calls[c].state == Unknown && s.db.calls[c].observedAt.None?
    ensures Next(s, SSettle(t, Answered), Settled(s, t, c))
  {
  }

  function Settled(s: State, t: Tid, c: Id): State {
    var u := Sql.SetOutcome(s.db.calls, c, Succeeded, NoCode, None, Unknown, s.now);
    Stop(WithCalls(s, u.calls).(early := s.early + {c}), t)
  }

  /** What the settled row is. */
  lemma SettledRow(s: State, t: Tid, c: Id)
    requires c in s.db.calls && s.db.calls[c].state == Unknown
    ensures c in Settled(s, t, c).db.calls && Settled(s, t, c).reports == s.reports
    ensures Settled(s, t, c).db.calls[c] == s.db.calls[c].(state := Succeeded, code := NoCode, usage := None,
                                                           updatedAt := s.now)
  {
  }

  lemma TwoSteps(a: State, b: State, c: State, first: Step, second: Step)
    requires Next(a, first, b) && Next(b, second, c)
    ensures Path([a, b, c], [first, second])
  {
    hide Next;
  }

  /** The operator's report goes unanswered and it asks Control all the same. */
  lemma OperatorReports(s: State, c: Id) returns (states: seq<State>, steps: seq<Step>)
    requires c in s.db.calls && s.db.calls[c].state == Unknown && s.db.calls[c].observedAt.None?
        && s.db.calls[c].dispatch.Some?
    ensures |steps| == 2 && Path(states, steps) && states[0] == s && steps[0] == SStartOperator(c)
    ensures var last := states[2];
      && last.db == s.db && last.now == s.now && Filed(c, ReportOf(s.db.calls[c])) in last.reports
      && s.nextTid in last.threads && last.threads[s.nextTid] == Resolving(c, s.db.calls[c])
  {
    hide Next, Path, ReportOf;
    var row, t := s.db.calls[c], s.nextTid;
    var s1 := Spawn(s.(risky := s.risky + {c}), Observing(c, row, true));
    var s2 := Goto(s1.(reports := s1.reports + {Filed(c, ReportOf(row))}), t, Resolving(c, row));
    OperatorStarts(s, c);
    ReportIsIssued(s1, t, c, row, true);
    TwoSteps(s, s1, s2, SStartOperator(c), SObserve(t, false));
    states, steps := [s, s1, s2], [SStartOperator(c), SObserve(t, false)];
  }

  /** Control's record settles the call before any observation of it is recorded. */
  lemma RecordSettles(s: State, c: Id, t: Tid, row: Call) returns (states: seq<State>, steps: seq<Step>)
    requires c in s.db.calls && s.db.calls[c].state == Unknown && s.db.calls[c].observedAt.None?
    requires t in s.threads && s.threads[t] == Resolving(c, row)
    ensures |steps| == 2 && Path(states, steps) && states[0] == s && states[2].reports == s.reports
    ensures c in states[2].db.calls
        && states[2].db.calls[c] == s.db.calls[c].(state := Succeeded, code := NoCode, usage := None,
                                                   updatedAt := s.now)
  {
    hide Next, Path, Settled;
    var s1 := Goto(s, t, Settling(c, row, Succeeded, NoCode));
    ControlSettles(s, t, c, row);
    SettlesEarly(s1, t, c, row);
    SettledRow(s1, t, c);
    TwoSteps(s, s1, Settled(s1, t, c), SAskControl(t, ObservedAs(OutSucceeded)), SSettle(t, Answered));
    states, steps := [s, s1, Settled(s1, t, c)], [SAskControl(t, ObservedAs(OutSucceeded)), SSettle(t, Answered)];
  }

  /** The settled row is reported. */
  lemma SettledIsReported(s: State, c: Id) returns (states: seq<State>, steps: seq<Step>, f: Filed)
    requires c in s.db.calls && s.db.calls[c].state == Succeeded && s.db.calls[c].observedAt.None?
        && s.db.calls[c].dispatch.Some?
    ensures |steps| == 2 && Path(states, steps) && states[0] == s
    ensures f == Filed(c, ReportOf(s.db.calls[c])) && states[2].reports == s.reports + {f}
  {
    hide Next, Path, ReportOf;
    var row, t := s.db.calls[c], s.nextTid;
    var s1 := Spawn(s, Observing(c, row, false));
    OperatorStarts(s, c);
    f := Filed(c, ReportOf(row));
    var s2 := Goto(s1.(reports := s1.reports + {f}), t, Acknowledging(c, row, false));
    ReportIsIssued(s1, t, c, row, false);
    TwoSteps(s, s1, s2, SStartOperator(c), SObserve(t, true));
    states := [s, s1, s2];
    steps := [SStartOperator(c), SObserve(t, true)];
  }

  lemma JoinPaths(states: seq<State>, steps: seq<Step>, states': seq<State>, steps': seq<Step>)
    requires Path(states, steps) && Path(states', steps') && states[|steps|] == states'[0]
    ensures Path(states + states'[1..], steps + steps')
    ensures (states + states'[1..])[|steps + steps'|] == states'[|steps'|] && (states + states'[1..])[0] == states[0]
  {
    hide Next;
    var all, moves := states + states'[1..], steps + steps';
    forall i | 0 <= i < |moves| ensures Next(all[i], moves[i], all[i + 1]) {
      if i >= |steps| {
        assert moves[i] == steps'[i - |steps|] && all[i + 1] == states'[i + 1 - |steps|];
        assert all[i] == states'[i - |steps|];
      }
    }
  }

  /** The condition is exact: from every reachable state with an UNKNOWN call that is not observed, the
      operator path can continue to two reports under the same (dispatch, sequence) with different outcomes. */
  lemma OperatorCanContradict(s: State, c: Id) returns (states: seq<State>, steps: seq<Step>, f: Filed, f': Filed)
    requires Inv(s) && c in s.db.calls && s.db.calls[c].state == Unknown && s.db.calls[c].observedAt.None?
    ensures |steps| > 0 && Path(states, steps) && states[0] == s && RiskyOperator(s, steps[0])
    ensures f in states[|steps|].reports && f' in states[|steps|].reports
    ensures f.report.dispatch == f'.report.dispatch && f.report.sequence == f'.report.sequence
    ensures f.report.outcome == OutUnknown && f'.report.outcome == OutSucceeded
  {
    assert s.db.calls[c].dispatch.Some? by { InvCall(s, c); }
    hide Inv, Next, Path, ReportOf;
    var row := s.db.calls[c];
    var states1, steps1 := OperatorReports(s, c);
    var states2, steps2 := RecordSettles(states1[2], c, s.nextTid, row);
    var states3, steps3, f3 := SettledIsReported(states2[2], c);
    JoinPaths(states2, steps2, states3, steps3);
    JoinPaths(states1, steps1, states2 + states3[1..], steps2 + steps3);
    states, steps := states1 + (states2 + states3[1..])[1..], steps1 + (steps2 + steps3);
    f, f' := Filed(c, ReportOf(row)), f3;
    ReportsDiffer(row, states2[2].db.calls[c]);
  }

  lemma ReportsDiffer(row: Call, settled: Call)
    requires row.state == Unknown && row.dispatch.Some? && settled.state == Succeeded
        && settled.dispatch == row.dispatch && settled.observations == row.observations
    ensures var r, r' := ReportOf(row), ReportOf(settled);
      r.dispatch == r'.dispatch && r.sequence == r'.sequence && r.outcome == OutUnknown && r'.outcome == OutSucceeded
  {
  }

  // ---------------------------------------------------------------- the send bound

  /** No reconciler and no operator records UNKNOWN before the send context of the marked call has expired, whenever the
      reconcile age is at least the send timeout: whether its sender still waits for the reply, holds it, or is gone. */
  lemma NoEarlyUnknown(r: Run, i: nat, c: Id)
    requires ValidRun(r) && i < |r.steps| && r.steps[i].SAbandon?
    requires var s := r.states[i]; s.opts.reconcileAge >= s.opts.sendTimeout
    requires c in r.states[i].db.calls && r.states[i].db.calls[c].state == Sent
    requires c in r.states[i + 1].db.calls && r.states[i + 1].db.calls[c].state == Unknown
    ensures c in r.states[i].marks && r.states[i].marks[c].bound < r.states[i].now
  {
    var s, s' := r.states[i], r.states[i + 1];
    assert CallOk(s, c) by { RunInv(r, i); }
    assert Abandon(s, s', r.steps[i].t, r.steps[i].wire) by { assert Next(s, r.steps[i], s'); }
    AbandonIsLate(s, s', r.steps[i].t, r.steps[i].wire, c);
  }

  /** The send context of a marked call is the one its sender sends under, and no other thread sends it or holds its
      reply. */
  lemma BoundIsTheSenders(r: Run, i: nat, t: Tid)
    requires ValidRun(r) && i < |r.states| && t in r.states[i].threads
    ensures var s := r.states[i]; var pc := s.threads[t];
      && (pc.Sending? ==> pc.call in s.marks && s.marks[pc.call] == Marker(t, pc.bound))
      && (pc.Concluding? ==> pc.call in s.marks && s.marks[pc.call].sender == t)
  {
    hide ValidRun;
    RunInv(r, i);
    assert ThreadOk(r.states[i], t, r.states[i].threads[t]);
  }

  lemma AbandonIsLate(s: State, s': State, t: Tid, wire: Wire, c: Id)
    requires Abandon(s, s', t, wire) && c in s.db.calls && c in s'.db.calls
        && s'.db.calls[c].state != s.db.calls[c].state
    ensures s.db.calls[c].marker.Some? && s.db.calls[c].marker.value < s.now - SentAge(s.opts)
  {
    hide Left;
    LeftCalls(s, s', t, s.threads[t].call,
              Sql.SetAbandoned(s.db.calls, s.threads[t].call, OutcomeUnknown, SentAge(s.opts), s.now), wire);
  }

  lemma LeftCalls(s: State, s': State, t: Tid, c: Id, u: Sql.CallUpdate, wire: Wire)
    requires Left(s, s', t, c, u, wire)
    ensures s'.db.calls == s.db.calls || s'.db.calls == u.calls
  {
    hide ReportOf;
    var s1 := if wire == LostBefore then s else Leave(s, t, c, u);
    assert s'.db == s1.db;
  }

  /** The condition on the configuration is exact: a marker committed at or after the start of the send bound
      is older than the bound whenever it is old enough to be abandoned, if and only if the reconcile age is at
      least the send timeout. (The configuration asks for strictly more.) */
  lemma SendBoundExact(o: Options)
    ensures (forall start: Time, marker: Time, now: Time | start <= marker && MayAbandon(o, marker, now) ::
             Expired(o, start, now))
        <==> o.reconcileAge >= o.sendTimeout
  {
    if o.reconcileAge < o.sendTimeout {
      assert MayAbandon(o, 0, SentAge(o) + 1) && !Expired(o, 0, SentAge(o) + 1);
    }
  }

  /** The send age is the earlier of the send timeout with five seconds more and the reconcile age. */
  lemma SendAgeIs(o: Options)
    ensures SentAge(o) <= o.sendTimeout + 5_000_000_000 && SentAge(o) <= o.reconcileAge
    ensures SentAge(o) == o.sendTimeout + 5_000_000_000 || SentAge(o) == o.reconcileAge
  {
  }

  predicate MayAbandon(o: Options, marker: Time, now: Time) {
    marker < now - SentAge(o)
  }

  predicate Expired(o: Options, start: Time, now: Time) {
    start + o.sendTimeout < now
  }
}
