/** Which attempt Control's answer about a swept lease belongs to: it was asked for before and outside the transaction
    that acts on it. */
module Answers {
  import opened Basics
  import opened TaskRules
  import opened TaskTables
  import opened TaskSystem
  import opened TaskInvariant
  import opened Trace
  import TaskPreservation
  import Protocol
  import Rows
  import Sql

  // ---------------------------------------------------------------- answers

  lemma AskedFrame(s: State, step: Step, s': State)
    requires Next(s, step, s')
    ensures if step.TAsk? then Ask(s, s', step.key, step.outcome) else s'.asked == s.asked
  {
    hide Protocol.Next, RequestTx, ClaimTx, HeartbeatTx, SubmitTx, CancelTx, SweepTx, RecordTx, RetainTx, DecideExpire,
         IsLatest, MayAdvance;
  }

  /** Every answer was obtained at an earlier step, while its attempt was the current one. */
  lemma {:induction false} AnswersAreTraced(r: Run, i: nat, q: Asked) returns (l: nat)
    requires ValidRun(r) && i < |r.states| && q in r.states[i].asked
    ensures l < i && r.steps[l] == TAsk(q.key, q.answer)
    ensures q.key in r.states[l].tb.rows && r.states[l].tb.rows[q.key].attemptCount == q.attempt
  {
    hide Next;
    if i > 0 {
      var s, step, s' := r.states[i - 1], r.steps[i - 1], r.states[i];
      AskedFrame(s, step, s');
      if q in s.asked { l := AnswersAreTraced(r, i - 1, q); } else { l := i - 1; }
    }
  }

  // ---------------------------------------------------------------- claims

  /** A claim of the generation takes effect in this step. */
  predicate Claimed(r: Run, m: nat, k: Key) {
    && m < |r.steps| && |r.states| == |r.steps| + 1
    && r.steps[m].TClaim? && r.steps[m].key == k && r.states[m + 1] != r.states[m]
  }

  /** Only a claim adds an attempt, and it adds one. */
  lemma CountStep(s: State, step: Step, s': State, k: Key)
    requires Next(s, step, s') && k in s.tb.rows
    ensures k in s'.tb.rows
    ensures s'.tb.rows[k].attemptCount
         == s.tb.rows[k].attemptCount + if step.TClaim? && step.key == k && s' != s then 1 else 0
  {
    if step.TClaim? { ClaimCounts(s, s', step, k); }
    else if step.TSubmit? { SubmitCounts(s, s', step, k); }
    else if step.TRequest? { RequestCounts(s, s', step, k); }
    else {
      hide Protocol.Next, RequestTx, ClaimTx, SubmitTx, RecordTx, IsLatest, MayAdvance;
    }
  }

  lemma ClaimCounts(s: State, s': State, step: Step, k: Key)
    requires Next(s, step, s') && step.TClaim? && k in s.tb.rows
    ensures k in s'.tb.rows
    ensures s'.tb.rows[k].attemptCount == s.tb.rows[k].attemptCount + if step.key == k && s' != s then 1 else 0
  {
  }

  lemma SubmitCounts(s: State, s': State, step: Step, k: Key)
    requires Next(s, step, s') && step.TSubmit? && k in s.tb.rows
    ensures k in s'.tb.rows && s'.tb.rows[k].attemptCount == s.tb.rows[k].attemptCount
  {
    if SubmitTx(s.tb, s.p.db, step.key, step.sub, s.p.now, step.bounds).Ok? {
      SubmitTxCounts(s.tb, s.p.db, step.key, step.sub, s.p.now, step.bounds, k);
    }
    hide SubmitTx;
  }

  lemma SubmitTxCounts(tb: Tables, db: Rows.Db, key: Key, sub: Submission, now: Time, bounds: Bounds, k: Key)
    requires k in tb.rows && SubmitTx(tb, db, key, sub, now, bounds).Ok?
    ensures var rows := SubmitTx(tb, db, key, sub, now, bounds).value.tb.rows;
      k in rows && rows[k].attemptCount == tb.rows[k].attemptCount
  {
    hide Current, ExpectedResult, Recorded, Sql.AcceptDrift;
  }

  lemma RequestCounts(s: State, s': State, step: Step, k: Key)
    requires Next(s, step, s') && step.TRequest? && k in s.tb.rows
    ensures k in s'.tb.rows && s'.tb.rows[k].attemptCount == s.tb.rows[k].attemptCount
  {
    hide Current;
    assert k != Key(step.input.task, step.latest + 1);
  }

  /** Over a stretch of a run the attempts grow exactly when a claim takes effect in it. */
  lemma {:induction false} ClaimsCount(r: Run, l: nat, j: nat, k: Key)
    requires ValidRun(r) && l <= j < |r.states| && k in r.states[l].tb.rows
    ensures k in r.states[j].tb.rows && r.states[l].tb.rows[k].attemptCount <= r.states[j].tb.rows[k].attemptCount
    ensures r.states[l].tb.rows[k].attemptCount < r.states[j].tb.rows[k].attemptCount
       <==> exists m :: l <= m < j && Claimed(r, m, k)
    decreases j
  {
    hide Next, Init;
    if l < j {
      ClaimsCount(r, l, j - 1, k);
      CountStep(r.states[j - 1], r.steps[j - 1], r.states[j], k);
      if r.states[j - 1].tb.rows[k].attemptCount < r.states[j].tb.rows[k].attemptCount {
        assert Claimed(r, j - 1, k);
      }
    }
  }

  // ---------------------------------------------------------------- the answer a sweep acts on

  /** The sweep that ends attempt a acts on an answer obtained at an earlier step, during attempt a or an earlier one;
      it is attempt a's own answer if and only if no claim of the generation took effect between the question and the
      sweep. */
  lemma SweepActsOnAnEarlierAnswer(r: Run, j: nat, k: Key, a: nat, w: Id, answer: DispatchOutcome) returns (l: nat)
    requires ValidRun(r) && j < |r.steps| && EndsHere(r.states[j], r.steps[j], k, a, w, ExpiredAfter(answer))
    ensures l < j && r.steps[l] == TAsk(k, answer) && k in r.states[l].tb.rows
    ensures r.steps[j].TSweep? && r.steps[j].asked.attempt == r.states[l].tb.rows[k].attemptCount <= a
    ensures r.steps[j].asked.attempt == a <==> !exists m :: l <= m < j && Claimed(r, m, k)
  {
    hide Next, Init;
    l := AnswersAreTraced(r, j, r.steps[j].asked);
    ClaimsCount(r, l, j, k);
  }
}
