/** What the decisions of callers, reviewers and operators lead to, over whole runs. */
module Decisions {
  import opened Basics
  import opened Rows
  import opened Protocol
  import opened Invariant
  import opened Theorems
  import Effects
  import Outcomes
  import Settlement
  import Sql

  lemma ManagedStep(s: State, s': State, m: Management)
    requires Next(s, SManage(m), s')
    ensures s' == s.(db := Managed(s.db, m, s.now))
  {
    hide Managed;
  }

  // ---------------------------------------------------------------- revocation

  /** A revocation that matches its grant puts it into the barrier with the reason given, and from then on no call of
      the grant is inserted or marked by anyone. */
  lemma RevocationIsABarrier(r: Run, i: nat, j: nat, g: Id, tenant: Id, revision: nat, reason: Code)
    requires ValidRun(r) && i < j < |r.states| && r.steps[i] == SManage(Revoke(g, tenant, revision, reason))
    requires g in r.states[i].db.grants && r.states[i].db.grants[g].tenant == tenant
    requires r.states[i].db.grants[g].revision == revision
    requires r.states[i].db.grants[g].state != Revoking && r.states[i].db.grants[g].state != Revoked
    ensures g in r.states[i + 1].db.grants && r.states[i + 1].db.grants[g].state == Revoking
    ensures reason != NoCode ==> r.states[i + 1].db.grants[g].code == reason
    ensures g in r.states[j].db.grants
        && (r.states[j].db.grants[g].state == Revoking || r.states[j].db.grants[g].state == Revoked)
    ensures !ExecutableAt(r.states[j], g)
    ensures forall c | c in r.states[j].db.calls && r.states[j].db.calls[c].grant == g ::
              c in r.states[i].db.calls && r.states[j].db.calls[c].marker == r.states[i].db.calls[c].marker
  {
    hide Next, Init;
    ManagedStep(r.states[i], r.states[i + 1], Revoke(g, tenant, revision, reason));
    Effects.RevokeEffect(r.states[i].db, g, tenant, revision, reason);
    hide Sql.RevokeGrant;
    NoMarkerAfterRevocation(r, i + 1, j, g);
  }

  // ---------------------------------------------------------------- review

  /** The review that approves the revision: on its digest, by another actor than its discoverer, of its tenant. */
  ghost predicate ApprovedHere(s: State, step: Step, k: DescriptorKey) {
    && step.SManage? && step.m.Review? && step.m.key == k && step.m.approve
    && k in s.db.descriptors && s.db.descriptors[k].state == ReviewPending
    && step.m.digest == s.db.descriptors[k].digest && step.m.actor != s.db.descriptors[k].discoveredBy
    && k.server in s.db.servers && s.db.servers[k.server].tenant == step.m.tenant
  }

  /** Of the management transactions only an approving review makes a revision approved, and only a discovery adds
      one; what was discovered never changes. */
  lemma ManagedRevision(s: State, s': State, m: Management, k: DescriptorKey)
    requires Next(s, SManage(m), s') && k in s'.db.descriptors
    ensures k !in s.db.descriptors ==> s'.db.descriptors[k].state == ReviewPending
    ensures s'.db.descriptors[k].state == Approved && !(k in s.db.descriptors && s.db.descriptors[k].state == Approved)
        ==> ApprovedHere(s, SManage(m), k)
  {
    ManagedStep(s, s', m);
    match m
    case Discover(server, tenant, digest, methods, actor) =>
      Effects.DiscoverEffect(s.db, server, tenant, digest, methods, actor);
      hide Sql.Discover;
    case Review(key, tenant, actor, digest, approve) =>
      Effects.ReviewEffect(s.db, key, tenant, actor, digest, approve);
      hide Sql.Review;
    case Disable(key, tenant) =>
      Effects.DisableEffect(s.db, key, tenant);
      hide Sql.Disable;
    case AcceptDrift(key) =>
      Effects.DriftEffect(s.db, key);
      hide Sql.AcceptDrift;
    case CreateGrant(g, req) =>
    case Revoke(g, tenant, revision, reason) =>
    case Expire(g) =>
  }

  lemma RevisionStep(s: State, step: Step, s': State, k: DescriptorKey)
    requires Next(s, step, s') && k in s'.db.descriptors && s'.db.descriptors[k].state == Approved
    ensures (k in s.db.descriptors && s.db.descriptors[k].state == Approved) || ApprovedHere(s, step, k)
  {
    if step.SManage? {
      hide Next;
      ManagedRevision(s, s', step.m, k);
    } else {
      OtherSteps(s, step, s');
    }
  }

  /** The catalog is as it was. */
  predicate SameCatalog(s: State, s': State) {
    s'.db.descriptors == s.db.descriptors && s'.db.servers == s.db.servers
  }

  lemma CommitRegisterLeaves(s: State, s': State, t: Tid, wire: Wire)
    requires CommitRegister(s, s', t, wire)
    ensures SameCatalog(s, s')
  {
    Effects.RegisterEffect(s.db, s.threads[t].grant, s.threads[t].answer);
    hide Sql.RegisterGrant;
  }

  lemma CommitBarrierLeaves(s: State, s': State, t: Tid, wire: Wire)
    requires CommitBarrier(s, s', t, wire)
    ensures SameCatalog(s, s')
  {
    var pc := s.threads[t];
    Effects.AdvanceEffect(s.db, pc.grant, pc.barrier, pc.noneOpen, s.now);
    hide Sql.AdvanceGrant;
  }

  lemma CommitCreateLeaves(s: State, s': State, t: Tid, wire: Wire)
    requires CommitCreate(s, s', t, wire)
    ensures SameCatalog(s, s')
  {
    var pc := s.threads[t];
    Effects.CreateCallEffect(s.db, pc.call, pc.req, pc.at, s.now);
    hide Sql.CreateCall, Effects.MayCreate;
  }

  lemma RecordAdmissionLeaves(s: State, s': State, t: Tid, wire: Wire)
    requires RecordAdmission(s, s', t, wire)
    ensures SameCatalog(s, s')
  {
    hide Sql.SetAdmission;
  }

  lemma MarkLeaves(s: State, s': State, t: Tid, wire: Wire)
    requires Mark(s, s', t, wire)
    ensures SameCatalog(s, s')
  {
    hide Sql.MarkCall;
  }

  lemma AcknowledgeLeaves(s: State, s': State, t: Tid, wire: Wire)
    requires Acknowledge(s, s', t, wire)
    ensures SameCatalog(s, s')
  {
    hide Sql.SetObserved;
  }

  lemma SettleLeaves(s: State, s': State, t: Tid, wire: Wire)
    requires Settle(s, s', t, wire)
    ensures SameCatalog(s, s')
  {
    hide Sql.SetOutcome;
  }

  lemma LeavingSteps(s: State, step: Step, s': State)
    requires Next(s, step, s') && Outcomes.LeavingStep(step)
    ensures SameCatalog(s, s')
  {
    hide Sql.SetOutcome, Sql.SetAbandoned, SentAge, Left, SameCatalog;
    var u, wire :| Left(s, s', step.t, s.threads[step.t].call, u, wire);
    LeftLeaves(s, s', step.t, s.threads[step.t].call, u, wire);
  }

  lemma LeftLeaves(s: State, s': State, t: Tid, c: Id, u: Sql.CallUpdate, wire: Wire)
    requires Left(s, s', t, c, u, wire)
    ensures SameCatalog(s, s')
  {
    hide ReportOf;
    var s1 := if wire == LostBefore then s else Leave(s, t, c, u);
    assert s1.db == s.db || s1.db == s.db.(calls := u.calls);
    hide Leave;
    assert s'.db == s1.db;
  }

  /** Every step but a management transaction leaves the catalog alone. */
  lemma OtherSteps(s: State, step: Step, s': State)
    requires Next(s, step, s') && !step.SManage?
    ensures SameCatalog(s, s')
  {
    hide SameCatalog, CommitRegister, CommitBarrier, CommitCreate, RecordAdmission, Mark, Acknowledge, Settle,
         Conclude, Cancel, Abandon,
         ShutDown;
    if !Settlement.Writes(step) { Quiet(s, step, s'); }
    else if Outcomes.LeavingStep(step) { LeavingSteps(s, step, s'); }
    else if step.SCommitRegister? { CommitRegisterLeaves(s, s', step.t, step.wire); }
    else if step.SCommitBarrier? { CommitBarrierLeaves(s, s', step.t, step.wire); }
    else if step.SCommitCreate? { CommitCreateLeaves(s, s', step.t, step.wire); }
    else if step.SRecordAdmission? { RecordAdmissionLeaves(s, s', step.t, step.wire); }
    else if step.SMark? { MarkLeaves(s, s', step.t, step.wire); }
    else if step.SAcknowledge? { AcknowledgeLeaves(s, s', step.t, step.wire); }
    else if step.SSettle? { SettleLeaves(s, s', step.t, step.wire); }
  }

  lemma Quiet(s: State, step: Step, s': State)
    requires Next(s, step, s') && !Settlement.Writes(step)
    ensures SameCatalog(s, s')
  {
    hide Next;
    if Early(step) { Settlement.QuietBefore(s, step, s'); } else { Settlement.QuietAfter(s, step, s'); }
  }

  /** Every approved revision was approved by a review of an actor other than its discoverer, of its tenant, on its
      digest. */
  lemma {:induction false} ApprovedWasReviewed(r: Run, i: nat, k: DescriptorKey) returns (j: nat)
    requires ValidRun(r) && i < |r.states| && k in r.states[i].db.descriptors
    requires r.states[i].db.descriptors[k].state == Approved
    ensures j < i && ApprovedHere(r.states[j], r.steps[j], k)
  {
    hide Next;
    if i > 0 {
      var s, step, s' := r.states[i - 1], r.steps[i - 1], r.states[i];
      RevisionStep(s, step, s', k);
      if k in s.db.descriptors && s.db.descriptors[k].state == Approved {
        j := ApprovedWasReviewed(r, i - 1, k);
      } else {
        j := i - 1;
      }
    }
  }

  /** A revision that was rejected is never approved. */
  lemma {:induction false} RejectedIsNeverApproved(r: Run, i: nat, j: nat, k: DescriptorKey)
    requires ValidRun(r) && i <= j < |r.states| && k in r.states[i].db.descriptors
    requires var state := r.states[i].db.descriptors[k].state; state == Rejected || state == Disabled
    ensures k in r.states[j].db.descriptors
    ensures var state := r.states[j].db.descriptors[k].state; state == Rejected || state == Disabled
    decreases j
  {
    hide Next, Init;
    if i < j {
      RejectedIsNeverApproved(r, i, j - 1, k);
      var s, step, s' := r.states[j - 1], r.steps[j - 1], r.states[j];
      if step.SManage? { DecidedStays(r, j - 1, k); } else { OtherSteps(s, step, s'); }
    }
  }

  /** No management transaction takes back a rejection or a withdrawal. */
  lemma DecidedStays(r: Run, i: nat, k: DescriptorKey)
    requires ValidRun(r) && i < |r.steps| && r.steps[i].SManage? && k in r.states[i].db.descriptors
    requires var state := r.states[i].db.descriptors[k].state; state == Rejected || state == Disabled
    ensures k in r.states[i + 1].db.descriptors
    ensures var state := r.states[i + 1].db.descriptors[k].state; state == Rejected || state == Disabled
  {
    var s, s', m := r.states[i], r.states[i + 1], r.steps[i].m;
    RunStep(r, i);
    KnownRevision(s, k);
    hide ValidRun, Inv;
    assert Next(s, SManage(m), s') by { StepOf(r, i); }
    hide Next;
    ManagedStep(s, s', m);
    DecidedUnder(s.db, m, s.now, k);
  }

  lemma StepOf(r: Run, i: nat)
    requires ValidRun(r) && i < |r.steps|
    ensures Next(r.states[i], r.steps[i], r.states[i + 1])
  {
  }

  /** A revision on record is not beyond the current one of its server. */
  lemma KnownRevision(s: State, k: DescriptorKey)
    requires Inv(s) && k in s.db.descriptors
    ensures k.server in s.db.servers && k.revision <= s.db.servers[k.server].currentRevision
  {
    assert DescriptorOk(s.db, k);
  }

  lemma DecidedUnder(db: Db, m: Management, now: Time, k: DescriptorKey)
    requires k in db.descriptors && (db.descriptors[k].state == Rejected || db.descriptors[k].state == Disabled)
    requires k.server in db.servers && k.revision <= db.servers[k.server].currentRevision
    ensures var db' := Managed(db, m, now);
      k in db'.descriptors && (db'.descriptors[k].state == Rejected || db'.descriptors[k].state == Disabled)
  {
    match m
    case Discover(server, tenant, digest, methods, actor) =>
      Effects.DiscoverEffect(db, server, tenant, digest, methods, actor);
      hide Sql.Discover;
    case _ =>
  }

  // ---------------------------------------------------------------- creation

  /** A call comes into being only by a creating transaction that may create it on the tables it finds. */
  lemma CreatedCall(s: State, s': State, t: Tid, wire: Wire, c: Id)
    requires Next(s, SCommitCreate(t, wire), s') && c !in s.db.calls && c in s'.db.calls
    ensures t in s.threads && s.threads[t].Creating? && s.threads[t].call == c
    ensures Effects.MayCreate(s.db, s.threads[t].req, s.threads[t].at)
  {
    var Creating(id, req, at) := s.threads[t];
    Effects.CreateCallEffect(s.db, id, req, at, s.now);
    hide Sql.CreateCall, Effects.MayCreate;
  }
}
