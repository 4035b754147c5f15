/** The rules of one generation of a durable background request: every decision is a
    function of the row, the request and the clock. Digests are their pre-images. */
module TaskRules {
  import opened Basics

  datatype TaskState = Pending | Leased | ResultSubmitted | Accepted | RetryScheduled | Dead | Stale | Canceled {
    predicate Terminal() {
      Accepted? || Dead? || Stale? || Canceled?
    }
  }

  datatype Effects = Reconstructible | External

  datatype Kind = CatalogRefreshKind | LocalCheckKind

  datatype Profile = CatalogRefreshProfile | LocalCheckProfile

  /** The frozen input: what its profile requires of it, or anything else. */
  datatype Input = LocalCheckInput(bytes: seq<int>) | RefreshInput(server: Id, revision: nat,
                                                                   digest: Id) | OtherInput(text: string)

  datatype Preimage = OfInput(input: Input) | OfBytes(bytes: seq<int>) | OfRefresh(task: Id, generation: nat,
      verdict: Verdict)

  /** A recorded live read: the revision, what it digested as, and whether it differs. */
  datatype Verdict = Verdict(server: Id, revision: nat, reviewed: Id, live: Option<Id>, drift: bool)

  /** A digest as text: of some pre-image, or not shaped as a digest. */
  datatype Digest = Malformed | Sha(pre: Preimage)

  datatype Ref = NoRef | LocalCheckRef(task: Id, generation: nat) | RefreshRef(task: Id,
      generation: nat) | OtherRef(text: string)

  datatype Failure =
    | NoFailure | LeaseExpired | EffectUncertain | ProfileMismatch | AuthorizationRevoked | CanceledByOwner | Superseded
    | AttemptsExhausted | HandlerFailed | Told(text: string)

  /** The durable row of one generation. */
  datatype Task = Task(
    task: Id, generation: nat, tenant: Id, kind: Kind, profile: Profile, input: Input, effects: Effects,
    dispatch: Option<Id>,
    authorization: Option<Id>, maxAttempts: nat,
    state: TaskState, worker: Option<Id>, leaseUntil: Time, attemptCount: nat, retryAt: Option<Time>,
    resultRef: Ref, resultDigest: Digest, failure: Failure, revision: nat)

  datatype AttemptOutcome = NoOutcome | AttemptAccepted | AttemptStale | AttemptExpired | AttemptFailed

  datatype Attempt = Attempt(ordinal: nat, worker: Id, leasedAt: Time, leaseUntil: Time, outcome: AttemptOutcome)

  datatype Bounds = Bounds(maxLease: Time, retryDelay: Time, maxAttempts: nat)

  datatype Error =
    | NotFound | Invalid | NotClaimable | StaleExecution | UncertainEffect | ProfileUnknown | AlreadyClaimed
    | DuplicateClaim | Forbidden

  // ---------------------------------------------------------------- requests

  predicate InputFits(profile: Profile, input: Input) {
    match profile
    case LocalCheckProfile => input.LocalCheckInput?
    case CatalogRefreshProfile => input.RefreshInput? && input.revision >= 1
  }

  function NewRequest(task: Id, tenant: Id, kind: Kind, profile: Profile, input: Input, effects: Effects,
                      dispatch: Option<Id>,
                      authorization: Option<Id>, bounds: Bounds): Result<Task, Error> {
    if effects == External && dispatch.None? then Err(Invalid)
    else if !InputFits(profile, input) then Err(Invalid)
    else Ok(Task(task, 1, tenant, kind, profile, input, effects, dispatch, authorization, bounds.maxAttempts,
                 Pending, None, 0, 0, None, NoRef, Malformed, NoFailure, 1))
  }

  function Supersede(prev: Task): (Task, bool) {
    if prev.state.Terminal() then (prev, false)
    else (prev.(state := Stale, failure := Superseded, revision := prev.revision + 1), true)
  }

  // ---------------------------------------------------------------- claim and heartbeat

  datatype ClaimDecision = ClaimDecision(task: Task, attempt: Attempt, expiredPrevious: bool)

  function DecideClaim(t: Task, previous: map<nat, Attempt>, worker: Id, lease: Time, now: Time,
                       bounds: Bounds): Result<ClaimDecision, Error> {
    if lease <= 0 || lease > bounds.maxLease then Err(Invalid)
    else if exists o :: o in previous && previous[o].worker == worker then Err(DuplicateClaim)
    else if t.state == RetryScheduled && t.retryAt.Some? && t.retryAt.value > now then Err(NotClaimable)
    else if t.state == Leased && t.leaseUntil > now then Err(AlreadyClaimed)
    else if t.state == Leased && t.effects != Reconstructible then Err(UncertainEffect)
    else if t.state != Pending && t.state != RetryScheduled && t.state != Leased then Err(NotClaimable)
    else if t.attemptCount >= t.maxAttempts then Err(NotClaimable)
    else
      var next := t.(state := Leased, worker := Some(worker), leaseUntil := now + lease,
                     attemptCount := t.attemptCount + 1,
                     retryAt := None, failure := NoFailure, revision := t.revision + 1);
      Ok(ClaimDecision(next, Attempt(next.attemptCount, worker, now, now + lease, NoOutcome), t.state == Leased))
  }

  function DecideHeartbeat(t: Task, current: Option<Attempt>, worker: Id, now: Time): Result<Task, Error> {
    if t.state != Leased || t.worker != Some(worker) || current.None?
        || current.value.worker != worker then Err(StaleExecution)
    else if t.leaseUntil <= now then Err(StaleExecution)
    else Ok(t.(leaseUntil := now + (current.value.leaseUntil - current.value.leasedAt), revision := t.revision + 1))
  }

  // ---------------------------------------------------------------- submit

  datatype Submission = Submission(worker: Id, inputDigest: Digest, succeeded: bool, resultRef: Ref,
                                   resultDigest: Digest, failure: Failure)

  datatype RecordedResult = RecordedResult(ref: Ref, digest: Digest)

  datatype SubmitDecision = SubmitDecision(task: Task, outcome: AttemptOutcome, accepted: bool, existing: bool,
                                           changed: bool)

  /** What the profile requires as the result; None when the owner recorded no expectation. */
  function ExpectedResult(t: Task, recorded: Option<RecordedResult>): Result<Option<RecordedResult>, Error> {
    match t.profile
    case CatalogRefreshProfile => Ok(recorded)
    case LocalCheckProfile =>
      if t.input.LocalCheckInput? then Ok(Some(RecordedResult(LocalCheckRef(t.task, t.generation),
                                                              Sha(OfBytes(t.input.bytes))))) else Err(Invalid)
  }

  function FailAttempt(t: Task, failure: Failure, now: Time, bounds: Bounds): SubmitDecision {
    var t1 := t.(failure := failure, revision := t.revision + 1);
    if t.attemptCount >= t.maxAttempts then
      SubmitDecision(t1.(state := Dead), AttemptFailed, false, false, true)
    else
      SubmitDecision(t1.(state := RetryScheduled, retryAt := Some(now + bounds.retryDelay), worker := None),
                     AttemptFailed, false, false, true)
  }

  function DecideSubmit(t: Task, current: Option<Attempt>, sub: Submission, authorized: bool, now: Time, bounds: Bounds,
                        recorded: Option<RecordedResult>): Result<SubmitDecision, Error> {
    if sub.inputDigest.Malformed? then Err(Invalid)
    else if t.state == Accepted then
      if t.worker == Some(sub.worker) && t.resultDigest == sub.resultDigest && t.resultRef == sub.resultRef
          && sub.succeeded then
        Ok(SubmitDecision(t, NoOutcome, true, true, false))
      else Err(StaleExecution)
    else if t.state != Leased || t.worker != Some(sub.worker) || current.None?
        || current.value.worker != sub.worker then Err(StaleExecution)
    else if t.leaseUntil <= now then Err(StaleExecution)
    else if sub.inputDigest != Sha(OfInput(t.input)) then Err(Invalid)
    else if !authorized then
      Ok(SubmitDecision(t.(state := Canceled, failure := AuthorizationRevoked, revision := t.revision + 1),
                        AttemptStale, false, false, true))
    else if !sub.succeeded then
      Ok(FailAttempt(t, if sub.failure == NoFailure then HandlerFailed else sub.failure, now, bounds))
    else if sub.resultDigest.Malformed? then Err(Invalid)
    else
      match ExpectedResult(t, recorded)
      case Err(e) => Err(e)
      case Ok(expected) =>
        if expected.None? || sub.resultRef != expected.value.ref || sub.resultDigest != expected.value.digest then
          Ok(FailAttempt(t, ProfileMismatch, now, bounds))
        else
          Ok(SubmitDecision(t.(state := Accepted, resultRef := sub.resultRef, resultDigest := sub.resultDigest,
                               failure := NoFailure,
                               revision := t.revision + 1), AttemptAccepted, true, false, true))
  }

  // ---------------------------------------------------------------- cancel and expiry

  datatype Settlement = Settlement(task: Task, outcome: AttemptOutcome, changed: bool)

  function DecideCancel(t: Task): Settlement {
    if t.state.Terminal() then Settlement(t, NoOutcome, false)
    else Settlement(t.(state := Canceled, failure := CanceledByOwner, revision := t.revision + 1),
                    if t.state == Leased then AttemptStale else NoOutcome, true)
  }

  /** Control's answer about the original dispatch of an external-effect attempt. */
  datatype DispatchOutcome = DispatchUnknown | DispatchNotSent | DispatchSent

  function DecideExpire(t: Task, outcome: DispatchOutcome, now: Time, bounds: Bounds): Settlement {
    if t.state != Leased || t.leaseUntil > now then Settlement(t, NoOutcome, false)
    else if t.effects == External && outcome != DispatchNotSent then
      Settlement(t.(state := Dead, failure := EffectUncertain, revision := t.revision + 1), AttemptExpired, true)
    else
      var t1 := t.(revision := t.revision + 1, worker := None);
      if t.attemptCount >= t.maxAttempts then
        Settlement(t1.(state := Dead, failure := AttemptsExhausted), AttemptExpired, true)
      else
        Settlement(t1.(state := RetryScheduled, retryAt := Some(now + bounds.retryDelay), failure := LeaseExpired),
                   AttemptExpired, true)
  }

  // ---------------------------------------------------------------- storing a row

  /** The row as the table keeps it: the lease instant of a row that is not leased is not stored. */
  function Stored(t: Task): Task {
    if t.state == Leased then t else t.(leaseUntil := 0)
  }
}
