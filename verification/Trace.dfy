/** How the attempts of a generation ended, traced back to the steps that ended them. */
module Trace {
  import opened Basics
  import opened TaskRules
  import opened TaskTables
  import opened TaskSystem
  import opened TaskInvariant
  import TaskPreservation
  import TaskTheorems
  import Sql
  import Protocol
  import Rows

  /** A submission of the worker changes the generation. */
  ghost predicate Submits(s: State, step: Step, k: Key, w: Id) {
    && step.TSubmit? && step.key == k && step.sub.worker == w
    && var tx := SubmitTx(s.tb, s.p.db, k, step.sub, s.p.now, step.bounds);
    tx.Ok? && tx.value.decision.changed
  }

  /** What it decided. */
  ghost function Decided(s: State, step: Step): SubmitDecision
    requires step.TSubmit? && SubmitTx(s.tb, s.p.db, step.key, step.sub, s.p.now, step.bounds).Ok?
  {
    SubmitTx(s.tb, s.p.db, step.key, step.sub, s.p.now, step.bounds).value.decision
  }

  /** A request for another input fences the generation. */
  ghost predicate Fences(s: State, step: Step, k: Key) {
    && step.TRequest? && Key(step.input.task, step.latest) == k && IsLatest(s.tb.rows, step.input.task, step.latest)
    && var tx := RequestTx(s.tb, s.p.db, step.latest, step.input, s.p.now, step.bounds);
    tx.Ok? && tx.value != s.tb
  }

  /** The step ends attempt `a` of the generation, held by `w`. */
  ghost predicate EndsHere(s: State, step: Step, k: Key, a: nat, w: Id, e: End) {
    && k in s.tb.rows && s.tb.rows[k].state == Leased && s.tb.rows[k].attemptCount == a
    && s.tb.rows[k].worker == Some(w)
    && match e
       case FailedByClaimant => Submits(s, step, k, w) && Decided(s, step).outcome == AttemptFailed
       case Completed => Submits(s, step, k, w) && Decided(s, step).accepted
       case ExpiredAfter(answer) =>
         && step.TSweep? && step.asked in s.asked && step.asked.key == k && step.asked.answer == answer
         && s.tb.rows[k].leaseUntil <= s.p.now
       case TakenOver =>
         && step.TClaim? && step.key == k && s.tb.rows[k].leaseUntil <= s.p.now
         && ClaimTx(s.tb, k, step.worker, step.lease, s.p.now, step.bounds).Ok?
       case Cut =>
         || (Submits(s, step, k, w) && Decided(s, step).outcome == AttemptStale)
         || (step.TCancel? && Key(step.task, step.latest) == k)
         || Fences(s, step, k)
       case Running => false
  }

  /** An end that is on record. */
  predicate OnRecord(h: History, a: nat, w: Id, e: End) {
    1 <= a <= |h.ends| && a <= |h.claimants| && h.ends[a - 1] == e && h.claimants[a - 1] == w
  }

  // ---------------------------------------------------------------- one step

  lemma ClosedRecords(h: History, e': End, a: nat, w: Id, e: End)
    requires OnRecord(Closed(h, e'), a, w, e) && e != Running
    ensures
      || OnRecord(h, a, w, e)
      || (e == e' && 1 <= a == |h.ends| <= |h.claimants| && h.ends[a - 1] == Running && h.claimants[a - 1] == w)
  {
  }

  lemma NothingRecorded(a: nat, w: Id, e: End)
    ensures !OnRecord(History([], [], 0, 0, 0), a, w, e)
  {
  }

  /** A running last attempt is held by its worker. */
  lemma RunningIsLeased(t: Task, h: History)
    requires EndsOk(t, h) && |h.ends| > 0 && h.ends[|h.ends| - 1] == Running
    ensures t.state == Leased && t.attemptCount == |h.ends| == |h.claimants|
    ensures t.worker == Some(h.claimants[|h.ends| - 1])
  {
  }

  /** The invariant of a row and its history. */
  ghost predicate RowEnds(s: State, k: Key) {
    k in s.tb.rows && k in s.history && EndsOk(s.tb.rows[k], s.history[k])
  }

  lemma RequestEnds(s: State, s': State, step: Step, k: Key, a: nat, w: Id, e: End)
    requires step.TRequest? && Request(s, s', step.latest, step.input, step.bounds)
    requires k in s'.history && OnRecord(s'.history[k], a, w, e) && e != Running
    requires step.latest > 0 ==> RowEnds(s, Key(step.input.task, step.latest))
    ensures (k in s.history && OnRecord(s.history[k], a, w, e)) || EndsHere(s, step, k, a, w, e)
  {
    hide RequestTx, OnRecord, EndsOk;
    var prev := Key(step.input.task, step.latest);
    NothingRecorded(a, w, e);
    if s' != s && k == prev && s'.history[k] != HistoryOf(s, k) {
      ClosedRecords(s.history[prev], Cut, a, w, e);
      if !OnRecord(s.history[k], a, w, e) { RunningIsLeased(s.tb.rows[k], s.history[k]); }
    }
  }

  lemma ClaimEnds(s: State, s': State, step: Step, k: Key, a: nat, w: Id, e: End)
    requires step.TClaim? && Claim(s, s', step.key, step.worker, step.lease, step.bounds)
    requires k in s'.history && OnRecord(s'.history[k], a, w, e) && e != Running
    requires s' != s ==> RowEnds(s, step.key)
    ensures (k in s.history && OnRecord(s.history[k], a, w, e)) || EndsHere(s, step, k, a, w, e)
  {
    if s' != s && k == step.key {
      var t, h := s.tb.rows[k], s.history[k];
      assert DecideClaim(t, AttemptsOf(s.tb, k), step.worker, step.lease, s.p.now, step.bounds).Ok?;
      assert |h.ends| > 0 && h.ends[|h.ends| - 1] == Running ==> t.state == Leased && t.leaseUntil <= s.p.now;
      hide ClaimTx;
    }
  }

  lemma HeartbeatEnds(s: State, s': State, key: Key, worker: Id, k: Key, a: nat, w: Id, e: End)
    requires Heartbeat(s, s', key, worker) && k in s'.history && OnRecord(s'.history[k], a, w, e)
    ensures k in s.history && OnRecord(s.history[k], a, w, e)
  {
    hide HeartbeatTx;
    NothingRecorded(a, w, e);
  }

  lemma CancelEnds(s: State, s': State, step: Step, k: Key, a: nat, w: Id, e: End)
    requires step.TCancel? && Cancel(s, s', step.latest, step.task)
    requires k in s'.history && OnRecord(s'.history[k], a, w, e) && e != Running
    requires s' != s ==> RowEnds(s, Key(step.task, step.latest))
    ensures (k in s.history && OnRecord(s.history[k], a, w, e)) || EndsHere(s, step, k, a, w, e)
  {
    hide CancelTx, IsLatest, OnRecord, EndsOk;
    if s' != s && k == Key(step.task, step.latest) {
      ClosedRecords(s.history[k], Cut, a, w, e);
      if !OnRecord(s.history[k], a, w, e) { RunningIsLeased(s.tb.rows[k], s.history[k]); }
    }
  }

  /** The label of a submission. */
  function LabelOf(d: SubmitDecision): End {
    if d.accepted then Completed else if d.outcome == AttemptFailed then FailedByClaimant else Cut
  }

  lemma SameEnds(h: History, h': History, a: nat, w: Id, e: End)
    requires OnRecord(h, a, w, e) && h.ends == h'.ends && h.claimants == h'.claimants
    ensures OnRecord(h', a, w, e)
  {
  }

  /** A change by submission comes from the holder of the lease. */
  lemma SubmitChanges(tb: Tables, db: Rows.Db, k: Key, sub: Submission, now: Time, bounds: Bounds)
    requires var tx := SubmitTx(tb, db, k, sub, now, bounds); tx.Ok? && tx.value.decision.changed
    ensures k in tb.rows && tb.rows[k].state == Leased && tb.rows[k].worker == Some(sub.worker)
    ensures var d := SubmitTx(tb, db, k, sub, now, bounds).value.decision;
      d.outcome == (if d.accepted then AttemptAccepted
                    else if LabelOf(d) == FailedByClaimant then AttemptFailed else AttemptStale)
  {
    hide Current, ExpectedResult, Recorded, Sql.AcceptDrift;
  }

  lemma SubmitEnds(s: State, s': State, step: Step, k: Key, a: nat, w: Id, e: End)
    requires step.TSubmit? && Submit(s, s', step.key, step.sub, step.bounds)
    requires k in s'.history && OnRecord(s'.history[k], a, w, e) && e != Running
    requires s' != s ==> RowEnds(s, step.key)
    ensures (k in s.history && OnRecord(s.history[k], a, w, e)) || EndsHere(s, step, k, a, w, e)
  {
    hide SubmitTx, OnRecord, EndsOk;
    if s' != s && k == step.key {
      var d := SubmitTx(s.tb, s.p.db, k, step.sub, s.p.now, step.bounds).value.decision;
      SubmitChanges(s.tb, s.p.db, k, step.sub, s.p.now, step.bounds);
      SameEnds(s'.history[k], Closed(s.history[k], LabelOf(d)), a, w, e);
      ClosedRecords(s.history[k], LabelOf(d), a, w, e);
      if !OnRecord(s.history[k], a, w, e) { RunningIsLeased(s.tb.rows[k], s.history[k]); }
    }
  }

  lemma SweepEnds(s: State, s': State, step: Step, k: Key, a: nat, w: Id, e: End)
    requires step.TSweep? && step.asked in s.asked && Sweep(s, s', step.asked.key, step.asked.answer, step.bounds)
    requires k in s'.history && OnRecord(s'.history[k], a, w, e) && e != Running
    requires s' != s ==> RowEnds(s, step.asked.key)
    ensures (k in s.history && OnRecord(s.history[k], a, w, e)) || EndsHere(s, step, k, a, w, e)
  {
    hide OnRecord, EndsOk;
    if s' != s && k == step.asked.key {
      ClosedRecords(s.history[k], ExpiredAfter(step.asked.answer), a, w, e);
      if !OnRecord(s.history[k], a, w, e) { RunningIsLeased(s.tb.rows[k], s.history[k]); }
    }
  }

  lemma QuietEnds(s: State, step: Step, s': State)
    requires Next(s, step, s')
    requires step.TEnvironment? || step.TAsk? || step.TStartRead? || step.TRecord? || step.TRetain?
    ensures s'.history == s.history
  {
    hide Protocol.Next, RecordTx, RetainTx, MayAdvance;
  }

  lemma GenerationOf(s: State, k: Key)
    requires Inv(s) && k in s.tb.rows
    ensures RowEnds(s, k)
  {
    TaskTheorems.InvGeneration(s, k);
  }

  /** The row a step may change. */
  function Touched(step: Step): Option<Key> {
    match step
    case TClaim(k, _, _, _) => Some(k)
    case TSubmit(k, _, _) => Some(k)
    case TSweep(q, _) => Some(q.key)
    case TCancel(latest, task) => Some(Key(task, latest))
    case TRequest(latest, input, _) => if latest > 0 then Some(Key(input.task, latest)) else None
    case _ => None
  }

  lemma ChangesARow(s: State, step: Step, s': State)
    requires Next(s, step, s') && s' != s && Touched(step).Some?
    ensures Touched(step).value in s.tb.rows
  {
    hide DecideClaim, DecideSubmit, DecideExpire, Environment, Heartbeat, Ask, StartRead, Record, Retain, Current,
         Sql.AcceptDrift, RequestTx;
  }

  /** A step keeps the ends on record, or is the one that put a new one there. */
  lemma StepEnds(s: State, step: Step, s': State, k: Key, a: nat, w: Id, e: End)
    requires Inv(s) && Next(s, step, s') && k in s'.history && OnRecord(s'.history[k], a, w, e) && e != Running
    ensures (k in s.history && OnRecord(s.history[k], a, w, e)) || EndsHere(s, step, k, a, w, e)
  {
    hide Inv, Environment, Request, Claim, Heartbeat, Submit, Cancel, Ask, Sweep, StartRead, Record, Retain, OnRecord,
         EndsHere, RowEnds;
    if s' != s {
      if Touched(step).Some? {
        ChangesARow(s, step, s');
        GenerationOf(s, Touched(step).value);
      }
      if step.TClaim? { ClaimEnds(s, s', step, k, a, w, e); }
      else if step.TSubmit? { SubmitEnds(s, s', step, k, a, w, e); }
      else if step.TSweep? { SweepEnds(s, s', step, k, a, w, e); }
      else if step.TRequest? { RequestEnds(s, s', step, k, a, w, e); }
      else if step.THeartbeat? { HeartbeatEnds(s, s', step.key, step.worker, k, a, w, e); }
      else if step.TCancel? { CancelEnds(s, s', step, k, a, w, e); }
      else { QuietEnds(s, step, s'); }
    }
  }

  // ---------------------------------------------------------------- whole runs

  /** Every attempt that is no longer running goes back to the step that ended it. */
  lemma {:induction false} EndsAreTraced(r: Run, i: nat, k: Key, a: nat, w: Id, e: End) returns (j: nat)
    requires ValidRun(r) && i < |r.states| && k in r.states[i].history && e != Running
    requires OnRecord(r.states[i].history[k], a, w, e)
    ensures j < i && EndsHere(r.states[j], r.steps[j], k, a, w, e)
  {
    hide Next, Inv, OnRecord, EndsHere;
    if i > 0 {
      var s, step, s' := r.states[i - 1], r.steps[i - 1], r.states[i];
      TaskPreservation.RunInv(r, i - 1);
      StepEnds(s, step, s', k, a, w, e);
      if EndsHere(s, step, k, a, w, e) { j := i - 1; } else { j := EndsAreTraced(r, i - 1, k, a, w, e); }
    }
  }

  // ---------------------------------------------------------------- each attempt ends once

  lemma ClosedKeeps(h: History, e': End, a: nat, w: Id, e: End)
    requires OnRecord(h, a, w, e) && e != Running
    ensures OnRecord(Closed(h, e'), a, w, e)
  {
  }

  lemma ClosedEnds(t: Task, h: History, e: End)
    requires EndsOk(t, h) && t.state == Leased
    ensures OnRecord(Closed(h, e), t.attemptCount, h.claimants[t.attemptCount - 1], e)
    ensures t.worker == Some(h.claimants[t.attemptCount - 1])
  {
  }

  /** What is on record stays, except that a request begins the next generation with nothing on record. */
  lemma RequestKeeps(s: State, s': State, step: Step, k: Key, a: nat, w: Id, e: End)
    requires step.TRequest? && Request(s, s', step.latest, step.input, step.bounds) && k in s.tb.rows
    requires k in s.history && OnRecord(s.history[k], a, w, e) && e != Running
    ensures k in s'.history && OnRecord(s'.history[k], a, w, e)
  {
    hide RequestTx, OnRecord;
    assert k != Key(step.input.task, step.latest + 1);
    ClosedKeeps(s.history[k], Cut, a, w, e);
  }

  lemma ClaimKeeps(s: State, s': State, step: Step, k: Key, a: nat, w: Id, e: End)
    requires step.TClaim? && Claim(s, s', step.key, step.worker, step.lease, step.bounds)
    requires k in s.history && OnRecord(s.history[k], a, w, e) && e != Running
    ensures k in s'.history && OnRecord(s'.history[k], a, w, e)
  {
    hide ClaimTx;
  }

  lemma OthersKeep(s: State, s': State, step: Step, k: Key, a: nat, w: Id, e: End)
    requires step.TSubmit? || step.TSweep? || step.TCancel? || step.THeartbeat?
    requires Next(s, step, s') && k in s.history && OnRecord(s.history[k], a, w, e) && e != Running
    ensures k in s'.history && OnRecord(s'.history[k], a, w, e)
  {
    hide SubmitTx, CancelTx, SweepTx, DecideExpire, HeartbeatTx, IsLatest;
  }

  lemma StepKeeps(s: State, step: Step, s': State, k: Key, a: nat, w: Id, e: End)
    requires Next(s, step, s') && k in s.tb.rows && k in s.history && OnRecord(s.history[k], a, w, e) && e != Running
    ensures k in s'.history && OnRecord(s'.history[k], a, w, e)
  {
    hide Environment, Request, Claim, Heartbeat, Submit, Cancel, Ask, Sweep, StartRead, Record, Retain, OnRecord;
    if step.TRequest? { RequestKeeps(s, s', step, k, a, w, e); }
    else if step.TClaim? { ClaimKeeps(s, s', step, k, a, w, e); }
    else if step.TSubmit? || step.TSweep? || step.TCancel? || step.THeartbeat? { OthersKeep(s, s', step, k, a, w, e); }
    else { QuietEnds(s, step, s'); }
  }

  lemma {:induction false} RecordsStay(r: Run, i: nat, j: nat, k: Key, a: nat, w: Id, e: End)
    requires ValidRun(r) && i <= j < |r.states| && k in r.states[i].tb.rows && k in r.states[i].history
    requires OnRecord(r.states[i].history[k], a, w, e) && e != Running
    ensures k in r.states[j].tb.rows && k in r.states[j].history && OnRecord(r.states[j].history[k], a, w, e)
    decreases j
  {
    hide Next, Init, Inv, OnRecord, LateralOk;
    if i < j {
      RecordsStay(r, i, j - 1, k, a, w, e);
      StepKeeps(r.states[j - 1], r.steps[j - 1], r.states[j], k, a, w, e);
      TaskPreservation.RunEvolves(r, j - 1, j);
    }
  }

  /** The step that ends an attempt puts the end on record. */
  lemma EndIsRecorded(s: State, step: Step, s': State, k: Key, a: nat, w: Id, e: End)
    requires Next(s, step, s') && EndsHere(s, step, k, a, w, e) && RowEnds(s, k)
    ensures k in s'.history && OnRecord(s'.history[k], a, w, e)
  {
    hide OnRecord;
    var t, h := s.tb.rows[k], s.history[k];
    ClosedEnds(t, h, e);
    hide EndsOk;
    if step.TSubmit? {
      SubmitRecords(s, step, s', k, a, w, e);
    } else if step.TClaim? {
      ClaimRecords(s, step, s', k, a, w);
    } else if step.TSweep? {
      assert DecideExpire(t, step.asked.answer, s.p.now, step.bounds).changed;
      hide SweepTx, DecideExpire;
    } else if step.TCancel? {
      hide CancelTx;
    } else {
      RequestRecords(s, step, s', k);
    }
  }

  lemma RequestRecords(s: State, step: Step, s': State, k: Key)
    requires Next(s, step, s') && Fences(s, step, k) && k in s.history && step.latest > 0
    requires k in s.tb.rows && s.tb.rows[k].state == Leased
    ensures k in s'.history && s'.history[k] == Closed(s.history[k], Cut)
  {
    hide RequestTx;
  }

  lemma SubmitRecords(s: State, step: Step, s': State, k: Key, a: nat, w: Id, e: End)
    requires Next(s, step, s') && EndsHere(s, step, k, a, w, e) && RowEnds(s, k) && step.TSubmit?
    requires OnRecord(Closed(s.history[k], e), a, w, e)
    ensures k in s'.history && OnRecord(s'.history[k], a, w, e)
  {
    hide OnRecord, EndsOk;
    SubmitChanges(s.tb, s.p.db, k, step.sub, s.p.now, step.bounds);
    hide SubmitTx;
    SameEnds(Closed(s.history[k], e), s'.history[k], a, w, e);
  }

  lemma ClaimRecords(s: State, step: Step, s': State, k: Key, a: nat, w: Id)
    requires Next(s, step, s') && EndsHere(s, step, k, a, w, TakenOver) && RowEnds(s, k)
    ensures k in s'.history && OnRecord(s'.history[k], a, w, TakenOver)
  {
    hide ClaimTx;
  }

  /** An attempt ends at one step of a run, in one way. */
  lemma AttemptsEndOnce(r: Run, i: nat, j: nat, k: Key, a: nat, w: Id, w': Id, e: End, e': End)
    requires ValidRun(r) && i < |r.steps| && j < |r.steps|
    requires EndsHere(r.states[i], r.steps[i], k, a, w, e) && EndsHere(r.states[j], r.steps[j], k, a, w', e')
    ensures i == j && w == w' && e == e'
  {
    hide Init, EndsHere, OnRecord, Next;
    NoEndAfter(r, i, j, k, a, w, w', e, e');
    NoEndAfter(r, j, i, k, a, w', w, e', e);
    SameEnd(r.states[i], r.steps[i], k, a, w, w', e, e');
  }

  lemma SameEnd(s: State, step: Step, k: Key, a: nat, w: Id, w': Id, e: End, e': End)
    requires EndsHere(s, step, k, a, w, e) && EndsHere(s, step, k, a, w', e')
    ensures w == w' && e == e'
  {
    if step.TSubmit? { SubmitChanges(s.tb, s.p.db, k, step.sub, s.p.now, step.bounds); }
    hide SubmitTx, ClaimTx, RequestTx;
  }

  lemma NoEndAfter(r: Run, i: nat, j: nat, k: Key, a: nat, w: Id, w': Id, e: End, e': End)
    requires ValidRun(r) && i < |r.steps| && j < |r.steps|
    requires EndsHere(r.states[i], r.steps[i], k, a, w, e) && EndsHere(r.states[j], r.steps[j], k, a, w', e')
    ensures !(i < j)
  {
    hide Init, Next, EndsHere, OnRecord, RowEnds, Inv;
    if i < j {
      HeldBefore(r.states[i], r.steps[i], k, a, w, e);
      TaskPreservation.RunInv(r, i);
      GenerationOf(r.states[i], k);
      EndIsRecorded(r.states[i], r.steps[i], r.states[i + 1], k, a, w, e);
      RowStays(r, i, i + 1, k);
      RecordsStay(r, i + 1, j, k, a, w, e);
      HeldBefore(r.states[j], r.steps[j], k, a, w', e');
      TaskPreservation.RunInv(r, j);
      GenerationOf(r.states[j], k);
      StillRunning(r.states[j], k, a, w, e);
    }
  }

  lemma RowStays(r: Run, i: nat, j: nat, k: Key)
    requires ValidRun(r) && i <= j < |r.states| && k in r.states[i].tb.rows
    ensures k in r.states[j].tb.rows
    ensures r.states[i].tb.rows[k].attemptCount <= r.states[j].tb.rows[k].attemptCount
  {
    hide Next, Init, Inv;
    TaskPreservation.RunInv(r, i);
    GenerationOf(r.states[i], k);
    TaskPreservation.RunEvolves(r, i, j);
  }

  lemma HeldBefore(s: State, step: Step, k: Key, a: nat, w: Id, e: End)
    requires EndsHere(s, step, k, a, w, e)
    ensures k in s.tb.rows && s.tb.rows[k].state == Leased && s.tb.rows[k].attemptCount == a && e != Running
  {
  }

  lemma StillRunning(s: State, k: Key, a: nat, w: Id, e: End)
    requires RowEnds(s, k) && s.tb.rows[k].state == Leased && s.tb.rows[k].attemptCount == a
    requires OnRecord(s.history[k], a, w, e)
    ensures e == Running
  {
  }

  // ---------------------------------------------------------------- external effects

  /** If attempt a + 1 of an external-effect generation exists, then at an earlier step attempt a was ended: by a
      failed submission of its own claimant, or by the sweep of its expired lease with Control's answer that nothing
      was sent. */
  lemma ExternalEffectsAreNotReassigned(r: Run, i: nat, k: Key, a: nat) returns (j: nat, w: Id, e: End)
    requires ValidRun(r) && i < |r.states| && k in r.states[i].tb.rows && r.states[i].tb.rows[k].effects == External
    requires 1 <= a < r.states[i].tb.rows[k].attemptCount
    ensures k in r.states[i].history && a <= |r.states[i].history[k].claimants|
        && w == r.states[i].history[k].claimants[a - 1]
    ensures j < i && EndsHere(r.states[j], r.steps[j], k, a, w, e)
        && (e == FailedByClaimant || e == ExpiredAfter(DispatchNotSent))
  {
    hide ValidRun, Inv, EndsHere;
    TaskTheorems.EarlierAttemptsReleased(r, i, k, a);
    TaskPreservation.RunInv(r, i);
    GenerationOf(r.states[i], k);
    w, e := r.states[i].history[k].claimants[a - 1], r.states[i].history[k].ends[a - 1];
    j := EndsAreTraced(r, i, k, a, w, e);
  }

  lemma UncertainSweep(s: State, s': State, k: Key, outcome: DispatchOutcome, bounds: Bounds)
    requires Sweep(s, s', k, outcome, bounds) && outcome != DispatchNotSent
    requires k in s.tb.rows && s.tb.rows[k].effects == External && s.tb.rows[k].state == Leased
        && s.tb.rows[k].leaseUntil <= s.p.now
    ensures k in s'.tb.rows && s'.tb.rows[k].state == Dead && s'.tb.rows[k].failure == EffectUncertain
    ensures s'.tb.rows[k].attemptCount == s.tb.rows[k].attemptCount
  {
  }

  /** The sweep of an expired external-effect lease without the answer that nothing was sent leaves the generation
      dead for the rest of the run, without a further attempt. */
  lemma UncertainSweepIsTheEnd(r: Run, i: nat, j: nat, k: Key)
    requires ValidRun(r) && i < j < |r.states| && r.steps[i].TSweep? && r.steps[i].asked.key == k
    requires r.steps[i].asked.answer != DispatchNotSent
    requires k in r.states[i].tb.rows
    requires var t := r.states[i].tb.rows[k];
      t.effects == External && t.state == Leased && t.leaseUntil <= r.states[i].p.now
    ensures k in r.states[j].tb.rows && r.states[j].tb.rows[k].state == Dead
        && r.states[j].tb.rows[k].failure == EffectUncertain
    ensures r.states[j].tb.rows[k].attemptCount == r.states[i].tb.rows[k].attemptCount
  {
    hide Inv, Init;
    assert Sweep(r.states[i], r.states[i + 1], k, r.steps[i].asked.answer, r.steps[i].bounds) by {
      assert Next(r.states[i], r.steps[i], r.states[i + 1]);
    }
    hide Next;
    UncertainSweep(r.states[i], r.states[i + 1], k, r.steps[i].asked.answer, r.steps[i].bounds);
    TaskPreservation.RunInv(r, i + 1);
    GenerationOf(r.states[i + 1], k);
    TaskPreservation.RunEvolves(r, i + 1, j);
  }
}
