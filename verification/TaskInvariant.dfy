/** What every committed state of the background lane keeps. */
module TaskInvariant {
  import opened Basics
  import opened TaskRules
  import opened TaskTables
  import opened TaskSystem
  import Rows
  import Invariant

  // ---------------------------------------------------------------- one generation

  ghost predicate Distinct(ws: seq<Id>) {
    forall i, j | 0 <= i < j < |ws| :: ws[i] != ws[j]
  }

  /** How an attempt must have ended before another may follow. */
  predicate Released(effects: Effects, e: End) {
    match e
    case FailedByClaimant => true
    case ExpiredAfter(answer) => effects == Reconstructible || answer == DispatchNotSent
    case TakenOver => effects == Reconstructible
    case _ => false
  }

  /** The attempt rows are claims of the generation; all of them while it is open. */
  ghost predicate AttemptsOk(t: Task, h: History, attempts: map<nat, Attempt>) {
    && (forall o | o in attempts :: 1 <= o <= |h.claimants| && attempts[o].worker == h.claimants[o - 1])
    && (!t.state.Terminal() ==> forall o | 1 <= o <= |h.claimants| :: o in attempts)
  }

  /** The state, the claimant and the ends of the attempts agree. */
  ghost predicate EndsOk(t: Task, h: History) {
    && |h.ends| == |h.claimants| == t.attemptCount
    && (forall i | 0 <= i < |h.ends| - 1 :: Released(t.effects, h.ends[i]))
    && match t.state
       case Pending => t.attemptCount == 0
       case Leased => t.attemptCount >= 1 && t.worker == Some(h.claimants[t.attemptCount - 1])
           && h.ends[t.attemptCount - 1] == Running
       case RetryScheduled => 1 <= t.attemptCount < t.maxAttempts && Released(t.effects, h.ends[t.attemptCount - 1])
       case ResultSubmitted => false
       case _ => t.attemptCount >= 1 ==>
             h.ends[t.attemptCount - 1] != Running
                 && (Uncertain(t.effects, h.ends[t.attemptCount - 1]) ==> t.state == Dead)
  }

  /** The lease of an external effect ran out and Control did not answer that nothing was sent. */
  predicate Uncertain(effects: Effects, e: End) {
    effects == External && e.ExpiredAfter? && e.answer != DispatchNotSent
  }

  /** The changes a generation can still undergo, heartbeats apart. */
  function Remaining(t: Task): int {
    match t.state
    case Pending => if t.maxAttempts == 0 then 1 else 2 * t.maxAttempts
    case Leased => 2 * (t.maxAttempts - t.attemptCount) + 1
    case RetryScheduled => 2 * (t.maxAttempts - t.attemptCount)
    case _ => 0
  }

  function Budget(maxAttempts: nat): nat {
    if maxAttempts == 0 then 1 else 2 * maxAttempts
  }

  ghost predicate CountsOk(t: Task, h: History) {
    && t.revision == 1 + h.changes + h.beats
    && t.attemptCount <= t.maxAttempts
    && h.changes + Remaining(t) <= Budget(t.maxAttempts)
    && h.acceptances == (if t.state == Accepted then 1 else 0)
  }

  /** The grant the request names authorizes it now. */
  predicate Authorized(db: Rows.Db, t: Task, now: Time) {
    && t.authorization.Some? && t.authorization.value in db.grants
    && var g := db.grants[t.authorization.value];
    && g.tenant == t.tenant && g.state == Rows.Active && g.receipt != ""
    && (g.expires == None || now < g.expires.value)
  }

  /** The one right result: of a local check the digest of its input bytes, of a refresh the digest of the recorded
      verdict. */
  predicate RightResult(tb: Tables, k: Key, ref: Ref, digest: Digest) {
    && k in tb.rows
    && match tb.rows[k].profile
       case LocalCheckProfile =>
         && tb.rows[k].input.LocalCheckInput? && ref == LocalCheckRef(tb.rows[k].task, tb.rows[k].generation)
         && digest == Sha(OfBytes(tb.rows[k].input.bytes))
       case CatalogRefreshProfile =>
         && k in tb.refreshes && ref == RefreshRef(tb.rows[k].task, tb.rows[k].generation)
         && digest == Sha(OfRefresh(tb.rows[k].task, tb.rows[k].generation, tb.refreshes[k]))
  }

  lemma AuthorizedIsCurrent(db: Rows.Db, t: Task, now: Time)
    ensures Authorized(db, t, now) <==> t.authorization.Some? && Current(db, t.authorization.value, t.tenant, now)
  {
  }

  lemma RightIsExpected(tb: Tables, k: Key, ref: Ref, digest: Digest)
    requires k in tb.rows && (tb.rows[k].profile == LocalCheckProfile ==> tb.rows[k].input.LocalCheckInput?)
    ensures var expected := ExpectedResult(tb.rows[k], Recorded(tb, k, tb.rows[k]));
      && expected.Ok?
      && (RightResult(tb, k, ref, digest) <==> expected.value == Some(RecordedResult(ref, digest)))
  {
  }

  /** An accepted result is exactly what its profile expects. */
  predicate ResultOk(tb: Tables, k: Key, t: Task) {
    t.state == Accepted ==>
      ExpectedResult(t, Recorded(tb, k, t)) == Ok(Some(RecordedResult(t.resultRef, t.resultDigest)))
  }

  ghost predicate GenerationOk(s: State, k: Key)
    requires k in s.tb.rows
  {
    var t := s.tb.rows[k];
    && t.task == k.task && t.generation == k.generation && 1 <= k.generation
    && k in s.history && k in s.tb.attempts
    && Distinct(s.history[k].claimants)
    && AttemptsOk(t, s.history[k], s.tb.attempts[k])
    && EndsOk(t, s.history[k])
    && CountsOk(t, s.history[k])
    && ResultOk(s.tb, k, t)
    && InputFits(t.profile, t.input)
  }

  // ---------------------------------------------------------------- the lane

  /** Generations are consecutive and only the latest is open. */
  ghost predicate Fenced(rows: map<Key, Task>) {
    forall k | k in rows && k.generation > 1 ::
      Key(k.task, k.generation - 1) in rows && rows[Key(k.task, k.generation - 1)].state.Terminal()
  }

  /** One requested event per generation, in the order of the generations of a task. */
  ghost predicate EventsOk(tb: Tables) {
    && (forall i | 0 <= i < |tb.events| :: tb.events[i] in tb.rows)
    && (forall k | k in tb.rows :: k in tb.events)
    && (forall i, j | 0 <= i < j < |tb.events| && tb.events[i].task == tb.events[j].task ::
        tb.events[i].generation < tb.events[j].generation)
  }

  predicate VerdictFits(v: Verdict, input: Input) {
    input.RefreshInput? && v.server == input.server && v.revision == input.revision && v.reviewed == input.digest
    && (v.drift <==> v.live != Some(v.reviewed))
  }

  ghost predicate RefreshesOk(s: State) {
    && (forall k | k in s.tb.refreshes :: k in s.tb.rows && VerdictFits(s.tb.refreshes[k], s.tb.rows[k].input))
    && (forall r | r in s.readers :: r.key in s.tb.rows && r.input == s.tb.rows[r.key].input)
  }

  ghost predicate LaneOk(s: State) {
    && (forall k | k in s.tb.rows :: GenerationOk(s, k))
    && Fenced(s.tb.rows) && EventsOk(s.tb) && RefreshesOk(s)
  }

  ghost predicate Inv(s: State) {
    Invariant.Inv(s.p) && LaneOk(s)
  }

  // ---------------------------------------------------------------- how a generation moves

  /** What no change of a row touches, and what a terminal row keeps: all of it. */
  predicate LaterTask(a: Task, b: Task) {
    && a.task == b.task && a.generation == b.generation && a.tenant == b.tenant && a.kind == b.kind
        && a.profile == b.profile
    && a.input == b.input && a.effects == b.effects && a.dispatch == b.dispatch && a.authorization == b.authorization
    && a.maxAttempts == b.maxAttempts
    && (a.state.Terminal() ==> b == a)
    && a.attemptCount <= b.attemptCount && a.revision <= b.revision
  }

  /** A claimant without a valid lease does not regain one. */
  predicate Holding(t: Task, worker: Id, now: Time) {
    t.state == Leased && t.worker == Some(worker) && t.leaseUntil > now
  }

  ghost predicate LateralOk(a: Task, h: History, b: Task, h': History, now: Time, now': Time) {
    && LaterTask(a, b)
    && h.claimants <= h'.claimants
    && (forall w | w in h.claimants && !Holding(a, w, now) :: !Holding(b, w, now'))
  }

  ghost predicate Evolves(s: State, s': State) {
    && s.p.now <= s'.p.now
    && (forall k | k in s.tb.rows && k in s.history ::
          k in s'.tb.rows && k in s'.history
              && LateralOk(s.tb.rows[k], s.history[k], s'.tb.rows[k], s'.history[k], s.p.now, s'.p.now))
    && (forall k | k in s.tb.refreshes :: k in s'.tb.refreshes && s'.tb.refreshes[k] == s.tb.refreshes[k])
  }

  ghost predicate Kept(s: State, s': State) {
    Inv(s') && Evolves(s, s')
  }

  // ---------------------------------------------------------------- one generation changes

  /** Only the generation `k` changed. */
  predicate OneGeneration(s: State, s': State, k: Key) {
    && k in s.tb.rows && k in s.history && k in s'.tb.rows && k in s'.history && k in s'.tb.attempts
    && s' == s.(p := s'.p, tb := s.tb.(rows := s.tb.rows[k := s'.tb.rows[k]],
                                       attempts := s.tb.attempts[k := s'.tb.attempts[k]]),
                history := s.history[k := s'.history[k]])
    && s'.p.now == s.p.now
  }

  /** A generation the step left alone. */
  lemma GenerationStable(s: State, s': State, j: Key)
    requires j in s.tb.rows && GenerationOk(s, j)
    requires j in s'.tb.rows && s'.tb.rows[j] == s.tb.rows[j]
    requires j in s'.history && s'.history[j] == s.history[j]
    requires j in s'.tb.attempts && s'.tb.attempts[j] == s.tb.attempts[j]
    requires j in s.tb.refreshes ==> j in s'.tb.refreshes && s'.tb.refreshes[j] == s.tb.refreshes[j]
    ensures GenerationOk(s', j)
  {
    hide Distinct, AttemptsOk, EndsOk, CountsOk;
  }

  lemma FencedKept(s: State, s': State, k: Key)
    requires Fenced(s.tb.rows) && OneGeneration(s, s', k) && LaterTask(s.tb.rows[k], s'.tb.rows[k])
    ensures Fenced(s'.tb.rows)
  {
  }

  lemma RefreshesKept(s: State, s': State, k: Key)
    requires RefreshesOk(s) && OneGeneration(s, s', k) && LaterTask(s.tb.rows[k], s'.tb.rows[k])
    ensures RefreshesOk(s')
  {
  }

  lemma EventsKept(s: State, s': State, k: Key)
    requires EventsOk(s.tb) && OneGeneration(s, s', k)
    ensures EventsOk(s'.tb)
  {
  }

  lemma OneGenerationEvolves(s: State, s': State, k: Key)
    requires OneGeneration(s, s', k)
    requires LateralOk(s.tb.rows[k], s.history[k], s'.tb.rows[k], s'.history[k], s.p.now, s'.p.now)
    ensures Evolves(s, s')
  {
    forall j | j in s.tb.rows && j in s.history
      ensures j in s'.tb.rows && j in s'.history
          && LateralOk(s.tb.rows[j], s.history[j], s'.tb.rows[j], s'.history[j], s.p.now, s'.p.now)
    {
      if j != k { assert s'.tb.rows[j] == s.tb.rows[j] && s'.history[j] == s.history[j]; }
    }
  }

  lemma OneGenerationKept(s: State, s': State, k: Key)
    requires LaneOk(s) && OneGeneration(s, s', k) && Invariant.Inv(s'.p)
    requires GenerationOk(s', k)
    requires LateralOk(s.tb.rows[k], s.history[k], s'.tb.rows[k], s'.history[k], s.p.now, s'.p.now)
    ensures Kept(s, s')
  {
    hide Invariant.Inv, Fenced, EventsOk, RefreshesOk, Evolves, GenerationOk;
    forall j | j in s'.tb.rows ensures GenerationOk(s', j) {
      if j != k {
        OtherHistory(s, s', k, j);
        GenerationStable(s, s', j);
      }
    }
    FencedKept(s, s', k);
    RefreshesKept(s, s', k);
    EventsKept(s, s', k);
    OneGenerationEvolves(s, s', k);
  }

  lemma OtherHistory(s: State, s': State, k: Key, j: Key)
    requires OneGeneration(s, s', k) && j != k && j in s'.tb.rows && j in s.tb.rows && GenerationOk(s, j)
    ensures j in s'.history && s'.history[j] == s.history[j] && j in s'.tb.attempts
        && s'.tb.attempts[j] == s.tb.attempts[j]
  {
    hide Distinct, AttemptsOk, EndsOk, CountsOk, ResultOk;
  }
}
