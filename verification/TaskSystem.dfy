/** The background lane as a transition system beside the protocol of calls and grants:
    workers, sweepers, refresh readers and retention act on the tables in any order, while
    every step of the protocol may happen in between. */
module TaskSystem {
  import opened Basics
  import opened TaskRules
  import opened TaskTables
  import Protocol

  /** How an attempt ended. */
  datatype End = Running | FailedByClaimant | ExpiredAfter(answer: DispatchOutcome) | TakenOver | Cut | Completed

  /** What happened to one generation: its claimants in order, how each attempt ended, and its committed changes. */
  datatype History = History(claimants: seq<Id>, ends: seq<End>, changes: nat, beats: nat, acceptances: nat)

  /** A live read in progress: the input of the generation was read when it began. */
  datatype Reader = Reader(key: Key, input: Input)

  /** Control's answer about a lease, and the attempt that was current when it was obtained. */
  datatype Asked = Asked(key: Key, answer: DispatchOutcome, attempt: nat)

  /** `asked` holds every answer a sweeper has obtained; whichever sweeper holds it may act on it at any later time. */
  datatype State = State(
    p: Protocol.State, tb: Tables, readers: set<Reader>, asked: set<Asked>, history: map<Key, History>)

  ghost predicate Init(s: State) {
    Protocol.Init(s.p) && s == State(s.p, Tables(map[], map[], map[], []), {}, {}, map[])
  }

  function HistoryOf(s: State, k: Key): History {
    if k in s.history then s.history[k] else History([], [], 0, 0, 0)
  }

  /** The last attempt ended. */
  function Closed(h: History, e: End): History {
    if |h.ends| > 0 && h.ends[|h.ends| - 1] == Running
      then h.(ends := h.ends[|h.ends| - 1 := e], changes := h.changes + 1)
    else h.(changes := h.changes + 1)
  }

  function Noted(s: State, k: Key, h: History): State {
    s.(history := s.history[k := h])
  }

  // ---------------------------------------------------------------- steps

  ghost predicate Environment(s: State, s': State, step: Protocol.Step) {
    Protocol.Next(s.p, step, s'.p) && s' == s.(p := s'.p)
  }

  predicate Request(s: State, s': State, latest: nat, input: RequestInput, bounds: Bounds) {
    IsLatest(s.tb.rows, input.task, latest)
    && match RequestTx(s.tb, s.p.db, latest, input, s.p.now, bounds)
       case Err(_) => s' == s
       case Ok(tb) =>
         var prev, next := Key(input.task, latest), Key(input.task, latest + 1);
         if tb == s.tb then s' == s
         else
           var s1 := if latest > 0 && !s.tb.rows[prev].state.Terminal()
             then Noted(s, prev, Closed(HistoryOf(s, prev), Cut)) else s;
           s' == Noted(s1, next, History([], [], 0, 0, 0)).(tb := tb)
  }

  predicate Claim(s: State, s': State, k: Key, worker: Id, lease: Time, bounds: Bounds) {
    match ClaimTx(s.tb, k, worker, lease, s.p.now, bounds)
    case Err(_) => s' == s
    case Ok(tb) =>
      var h := HistoryOf(s, k);
      var ends := if |h.ends| > 0 && h.ends[|h.ends| - 1] == Running then h.ends[|h.ends| - 1 := TakenOver] else h.ends;
      s' == Noted(s, k, h.(claimants := h.claimants + [worker], ends := ends + [Running],
                           changes := h.changes + 1)).(tb := tb)
  }

  predicate Heartbeat(s: State, s': State, k: Key, worker: Id) {
    match HeartbeatTx(s.tb, k, worker, s.p.now)
    case Err(_) => s' == s
    case Ok(tb) => s' == Noted(s, k, HistoryOf(s, k).(beats := HistoryOf(s, k).beats + 1)).(tb := tb)
  }

  predicate Submit(s: State, s': State, k: Key, sub: Submission, bounds: Bounds) {
    match SubmitTx(s.tb, s.p.db, k, sub, s.p.now, bounds)
    case Err(_) => s' == s
    case Ok(e) =>
      if !e.decision.changed then s' == s
      else
        var h := Closed(HistoryOf(s, k),
                        if e.decision.accepted then Completed else if e.decision.outcome == AttemptFailed
                          then FailedByClaimant else Cut);
        s' == Noted(s, k, if e.decision.accepted then h.(acceptances := h.acceptances + 1) else h).(tb := e.tb,
            p := s.p.(db := e.db))
  }

  predicate Cancel(s: State, s': State, latest: nat, task: Id) {
    IsLatest(s.tb.rows, task, latest)
    && match CancelTx(s.tb, latest, task)
       case Err(_) => s' == s
       case Ok(tb) =>
         var k := Key(task, latest);
         if s.tb.rows[k].state.Terminal() then s' == s
         else s' == Noted(s, k, Closed(HistoryOf(s, k), Cut)).(tb := tb)
  }

  /** A sweeper reads the row and asks Control about an external effect, before and outside its transaction; a
      reconstructible one is not asked about. */
  predicate Ask(s: State, s': State, k: Key, outcome: DispatchOutcome) {
    && k in s.tb.rows && (s.tb.rows[k].effects != External ==> outcome == DispatchUnknown)
    && s' == s.(asked := s.asked + {Asked(k, outcome, s.tb.rows[k].attemptCount)})
  }

  /** The transaction of one swept lease, with the answer obtained before it. */
  predicate Sweep(s: State, s': State, k: Key, outcome: DispatchOutcome, bounds: Bounds) {
    match SweepTx(s.tb, k, outcome, s.p.now, bounds)
    case Err(_) => s' == s
    case Ok(tb) =>
      if !DecideExpire(s.tb.rows[k], outcome, s.p.now, bounds).changed then s' == s
      else s' == Noted(s, k, Closed(HistoryOf(s, k), ExpiredAfter(outcome))).(tb := tb)
  }

  predicate StartRead(s: State, s': State, k: Key, worker: Id, digest: Digest) {
    MayAdvance(s.tb, k, worker, digest, s.p.now) && k !in s.tb.refreshes
    && s' == s.(readers := s.readers + {Reader(k, s.tb.rows[k].input)})
  }

  /** The live read is recorded, possibly long after its claimant lost the lease. */
  predicate Record(s: State, s': State, r: Reader, live: Option<Id>) {
    r in s.readers && r.input.RefreshInput?
    && var v := Verdict(r.input.server, r.input.revision, r.input.digest, live, live != Some(r.input.digest));
    s' == s.(tb := RecordTx(s.tb, r.key, v), readers := s.readers - {r})
  }

  predicate Retain(s: State, s': State, k: Key, ordinals: set<nat>) {
    s' == s.(tb := RetainTx(s.tb, k, ordinals))
  }

  datatype Step =
    | TEnvironment(step: Protocol.Step)
    | TRequest(latest: nat, input: RequestInput, bounds: Bounds)
    | TClaim(key: Key, worker: Id, lease: Time, bounds: Bounds)
    | THeartbeat(key: Key, worker: Id)
    | TSubmit(key: Key, sub: Submission, bounds: Bounds)
    | TCancel(latest: nat, task: Id)
    | TAsk(key: Key, outcome: DispatchOutcome)
    | TSweep(asked: Asked, bounds: Bounds)
    | TStartRead(key: Key, worker: Id, digest: Digest)
    | TRecord(reader: Reader, live: Option<Id>)
    | TRetain(key: Key, ordinals: set<nat>)

  ghost predicate Next(s: State, step: Step, s': State) {
    match step
    case TEnvironment(pstep) => Environment(s, s', pstep)
    case TRequest(latest, input, bounds) => Request(s, s', latest, input, bounds)
    case TClaim(k, worker, lease, bounds) => Claim(s, s', k, worker, lease, bounds)
    case THeartbeat(k, worker) => Heartbeat(s, s', k, worker)
    case TSubmit(k, sub, bounds) => Submit(s, s', k, sub, bounds)
    case TCancel(latest, task) => Cancel(s, s', latest, task)
    case TAsk(k, outcome) => Ask(s, s', k, outcome)
    case TSweep(q, bounds) => q in s.asked && Sweep(s, s', q.key, q.answer, bounds)
    case TStartRead(k, worker, digest) => StartRead(s, s', k, worker, digest)
    case TRecord(reader, live) => Record(s, s', reader, live)
    case TRetain(k, ordinals) => Retain(s, s', k, ordinals)
  }

  datatype Run = Run(states: seq<State>, steps: seq<Step>)

  ghost predicate ValidRun(r: Run) {
    && |r.states| == |r.steps| + 1
    && Init(r.states[0])
    && forall i :: 0 <= i < |r.steps| ==> Next(r.states[i], r.steps[i], r.states[i + 1])
  }
}
