/** The background lane together with the protocol of calls and grants: every run of the joint system is a run of the
    protocol, so what is proved of calls and grants holds beside the lane too. */
module Joint {
  import opened Basics
  import opened TaskRules
  import opened TaskTables
  import opened TaskSystem
  import Rows
  import Sql
  import Protocol
  import Theorems
  import TaskTheorems

  /** The step of the protocol that a step of the joint system is: its own, the withdrawal of a drifted revision, or
      none. */
  ghost function Shadow(s: State, step: Step, s': State): Protocol.Step {
    if step.TEnvironment? then step.step
    else if step.TSubmit? && s'.p != s.p && step.key in s.tb.refreshes then
      Protocol.SManage(Protocol.AcceptDrift(Rows.DescriptorKey(s.tb.refreshes[step.key].server,
                                                               s.tb.refreshes[step.key].revision)))
    else Protocol.STick(0)
  }

  /** Only a submission writes the tables of the protocol. */
  lemma OthersLeaveTheProtocol(s: State, step: Step, s': State)
    requires Next(s, step, s') && !step.TEnvironment? && !step.TSubmit?
    ensures s'.p == s.p
  {
    hide RequestTx, ClaimTx, HeartbeatTx, CancelTx, SweepTx, RecordTx, RetainTx, DecideExpire, IsLatest, MayAdvance;
  }

  lemma SubmitsWithdraw(s: State, s': State, k: Key, sub: Submission, bounds: Bounds)
    requires Submit(s, s', k, sub, bounds) && s'.p != s.p
    ensures k in s.tb.refreshes
    ensures s'.p == s.p.(db := Sql.AcceptDrift(s.p.db,
                                               Rows.DescriptorKey(s.tb.refreshes[k].server,
                                                                  s.tb.refreshes[k].revision)))
  {
    hide DecideSubmit, Current, Recorded, Sql.AcceptDrift;
  }

  lemma WithdrawalIsAStep(p: Protocol.State, d: Rows.DescriptorKey)
    ensures Protocol.Next(p, Protocol.SManage(Protocol.AcceptDrift(d)), p.(db := Sql.AcceptDrift(p.db, d)))
  {
    hide Sql.AcceptDrift;
  }

  lemma StutterIsAStep(p: Protocol.State)
    ensures Protocol.Next(p, Protocol.STick(0), p)
  {
    assert p == p.(now := p.now + 0);
  }

  lemma EnvironmentOf(s: State, step: Step, s': State)
    requires Next(s, step, s') && step.TEnvironment?
    ensures Protocol.Next(s.p, step.step, s'.p)
  {
    hide Protocol.Next;
  }

  lemma SubmitOf(s: State, step: Step, s': State)
    requires Next(s, step, s') && step.TSubmit?
    ensures Submit(s, s', step.key, step.sub, step.bounds)
  {
    hide Submit;
  }

  lemma StepProjects(s: State, step: Step, s': State)
    requires Next(s, step, s')
    ensures Protocol.Next(s.p, Shadow(s, step, s'), s'.p)
  {
    hide Next, Protocol.Next, Submit;
    if step.TEnvironment? {
      EnvironmentOf(s, step, s');
    } else if step.TSubmit? && s'.p != s.p {
      SubmitOf(s, step, s');
      SubmitsWithdraw(s, s', step.key, step.sub, step.bounds);
      WithdrawalIsAStep(s.p, Rows.DescriptorKey(s.tb.refreshes[step.key].server, s.tb.refreshes[step.key].revision));
    } else {
      if !step.TSubmit? { OthersLeaveTheProtocol(s, step, s'); }
      StutterIsAStep(s.p);
    }
  }

  /** The protocol's part of a run. */
  ghost function Projection(r: Run): Protocol.Run
    requires |r.states| == |r.steps| + 1
  {
    Protocol.Run(seq(|r.states|, i requires 0 <= i < |r.states| => r.states[i].p),
                 seq(|r.steps|, i requires 0 <= i < |r.steps| => Shadow(r.states[i], r.steps[i], r.states[i + 1])))
  }

  /** Every run of the joint system is, in the tables and threads of calls and grants, a run of the protocol. */
  lemma RunProjects(r: Run)
    requires ValidRun(r)
    ensures Protocol.ValidRun(Projection(r))
    ensures forall i | 0 <= i < |r.states| :: Projection(r).states[i] == r.states[i].p
  {
    hide Next, Protocol.Next, Shadow;
    var p := Projection(r);
    forall i | 0 <= i < |p.steps| ensures Protocol.Next(p.states[i], p.steps[i], p.states[i + 1]) {
      StepProjects(r.states[i], r.steps[i], r.states[i + 1]);
    }
  }

  /** Beside the lane too, all calls of a revoked grant are terminal and stay so. */
  lemma RevokedMeansSettled(r: Run, i: nat, j: nat, g: Id)
    requires ValidRun(r) && i <= j < |r.states|
    requires g in r.states[i].p.db.grants && r.states[i].p.db.grants[g].state == Rows.Revoked
    ensures forall c | c in r.states[j].p.db.calls && r.states[j].p.db.calls[c].grant == g ::
              && c in r.states[i].p.db.calls
              && r.states[j].p.db.calls[c].Terminal()
              && r.states[j].p.db.calls[c].state == r.states[i].p.db.calls[c].state
  {
    hide Next, Init, Protocol.ValidRun;
    RunProjects(r);
    hide Projection;
    Theorems.RevokedMeansSettled(Projection(r), i, j, g);
  }

  /** Once a submission accepted the drift of an approved revision, no call of that revision is ever marked as sent
      again. */
  lemma DriftIsNeverMarked(r: Run, i: nat, j: nat, k: Key)
    requires ValidRun(r) && i < j < |r.states| && r.steps[i].TSubmit? && r.steps[i].key == k
    requires k in r.states[i].tb.rows && k in r.states[i + 1].tb.rows
    requires r.states[i].tb.rows[k].state != Accepted && r.states[i + 1].tb.rows[k].state == Accepted
    requires r.states[i].tb.rows[k].profile == CatalogRefreshProfile && k in r.states[i].tb.refreshes
        && r.states[i].tb.refreshes[k].drift
    requires var v := r.states[i].tb.refreshes[k]; var d := Rows.DescriptorKey(v.server, v.revision);
      d in r.states[i].p.db.descriptors && r.states[i].p.db.descriptors[d].state == Rows.Approved
    ensures var v := r.states[i].tb.refreshes[k]; var d := Rows.DescriptorKey(v.server, v.revision);
      && d in r.states[j].p.db.descriptors && r.states[j].p.db.descriptors[d].state == Rows.Disabled
      && forall c | c in r.states[j].p.db.calls && Rows.KeyOfCall(r.states[j].p.db.calls[c]) == d
          && r.states[j].p.db.calls[c].marker.Some? ::
           c in r.states[i].p.db.calls && r.states[i].p.db.calls[c].marker == r.states[j].p.db.calls[c].marker
  {
    hide Next, Init, Protocol.ValidRun, Submit, Current, ExpectedResult, Recorded;
    var s, s' := r.states[i], r.states[i + 1];
    var d := Rows.DescriptorKey(s.tb.refreshes[k].server, s.tb.refreshes[k].revision);
    TaskTheorems.SubmitOf(r, i);
    TaskTheorems.SubmitAccepts(s, s', k, r.steps[i].sub, r.steps[i].bounds);
    Withdrawn(s.p.db, d);
    RunProjects(r);
    hide Projection;
    Theorems.DisabledIsNeverMarked(Projection(r), i + 1, j, d);
  }

  lemma Withdrawn(db: Rows.Db, d: Rows.DescriptorKey)
    requires d in db.descriptors && db.descriptors[d].state == Rows.Approved
    ensures var db' := Sql.AcceptDrift(db, d);
      d in db'.descriptors && db'.descriptors[d].state == Rows.Disabled && db'.calls == db.calls
  {
  }
}
