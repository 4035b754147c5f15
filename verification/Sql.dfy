/** The guarded updates and the transaction bodies as functions of the tables they
    run on. A refused transaction leaves the tables as they are. */
module Sql {
  import opened Basics
  import opened Rows

  /** The rows of tool_requests after an update, and how many rows it changed. */
  datatype CallUpdate = CallUpdate(calls: map<Id, Call>, changed: nat)

  // ---------------------------------------------------------------- tool_requests

  function SetAdmission(calls: map<Id, Call>, id: Id, state: CallState, dispatch: Id, code: Code,
                        now: Time): CallUpdate {
    if id in calls && calls[id].state == Accepted then
      CallUpdate(calls[id := calls[id].(state := state, dispatch := Some(dispatch), code := code, updatedAt := now)], 1)
    else
      CallUpdate(calls, 0)
  }

  function SetMarker(calls: map<Id, Call>, id: Id, now: Time): CallUpdate {
    if id in calls && calls[id].state == Admitted && calls[id].marker.None? then
      CallUpdate(calls[id := calls[id].(state := Sent, marker := Some(now), updatedAt := now)], 1)
    else
      CallUpdate(calls, 0)
  }

  function SetOutcome(calls: map<Id, Call>, id: Id, state: CallState, code: Code, usage: Option<nat>,
                      expected: CallState, now: Time): CallUpdate {
    if id in calls && calls[id].state == expected then
      CallUpdate(calls[id := calls[id].(state := state, code := code, usage := usage, updatedAt := now)], 1)
    else
      CallUpdate(calls, 0)
  }

  function SetAbandoned(calls: map<Id, Call>, id: Id, code: Code, sentAge: Time, now: Time): CallUpdate {
    if id in calls && calls[id].state == Sent && calls[id].marker.Some? && calls[id].marker.value < now - sentAge then
      CallUpdate(calls[id := calls[id].(state := Unknown, code := code, updatedAt := now)], 1)
    else
      CallUpdate(calls, 0)
  }

  function SetObserved(calls: map<Id, Call>, id: Id, sequence: nat, now: Time): CallUpdate {
    if id in calls && calls[id].observations == sequence then
      CallUpdate(calls[id := calls[id].(observedAt := Some(now), observations := sequence + 1, updatedAt := now)], 1)
    else
      CallUpdate(calls, 0)
  }

  /** What CountOpenToolRequests counts. */
  function OpenCalls(calls: map<Id, Call>, grant: Id, revision: nat): set<Id> {
    set c | c in calls && calls[c].grant == grant && calls[c].grantRevision == revision && calls[c].Open()
  }

  /** CountOpenToolRequests answers zero. */
  predicate NoOpenCall(calls: map<Id, Call>, grant: Id, revision: nat) {
    forall c | c in calls && calls[c].grant == grant && calls[c].grantRevision == revision :: !calls[c].Open()
  }

  lemma NoneOpenIsEmpty(calls: map<Id, Call>, grant: Id, revision: nat)
    ensures |OpenCalls(calls, grant, revision)| == 0 <==> NoOpenCall(calls, grant, revision)
  {
    var open := OpenCalls(calls, grant, revision);
    if NoOpenCall(calls, grant, revision) {
      assert open == {};
    } else {
      var c :| c in calls && calls[c].grant == grant && calls[c].grantRevision == revision && calls[c].Open();
      assert c in open;
    }
  }

  // ---------------------------------------------------------------- Calls.Create

  /** The content of a CreateCall: `argumentsOk` and `routed` are the answers of the
      schema validation and of the route table, which the model does not interpret. */
  datatype CallRequest = CallRequest(
    scope: Scope, grant: Id, grantRevision: nat, tool: string, deadline: Time, argumentsOk: bool, routed: bool)

  /** An UNKNOWN call restricts new calls of its tenant to its server. */
  predicate Restricted(calls: map<Id, Call>, tenant: Id, server: Id) {
    exists c :: c in calls && calls[c].tenant == tenant && calls[c].server == server && calls[c].state == Unknown
  }

  /** The checks of the creating transaction; `at` was read before it began. */
  predicate CreateAdmits(db: Db, req: CallRequest, at: Time) {
    && req.grant in db.grants
    && var g := db.grants[req.grant];
    && g.tenant == req.scope.tenant
    && CallerMaySend(req.scope, g)
    && g.revision == req.grantRevision
    && g.Executable(at)
    && req.tool in g.methods
    && KeyOfGrant(g) in db.descriptors
    && db.descriptors[KeyOfGrant(g)].state == Approved
    && db.descriptors[KeyOfGrant(g)].digest == g.descriptorDigest
    && req.tool in db.descriptors[KeyOfGrant(g)].methods
    && req.argumentsOk
    && req.routed
    && !Restricted(db.calls, g.tenant, g.server)
  }

  function NewCall(g: Grant, grant: Id, deadline: Time, now: Time): Call {
    Call(g.tenant, grant, g.revision, g.server, g.descriptorRevision, g.descriptorDigest, deadline,
         Accepted, None, NoCode, None, None, None, 0, now)
  }

  /** The creating transaction; a used call identity is a unique violation. */
  function CreateCall(db: Db, id: Id, req: CallRequest, at: Time, now: Time): Db {
    if id !in db.calls && CreateAdmits(db, req, at) then
      db.(calls := db.calls[id := NewCall(db.grants[req.grant], req.grant, req.deadline, now)])
    else
      db
  }

  // ---------------------------------------------------------------- Calls.send, the marker

  predicate MarkerAdmits(db: Db, call: Call, now: Time) {
    call.grant in db.grants && db.grants[call.grant].revision == call.grantRevision
        && db.grants[call.grant].Executable(now)
  }

  /** The marker transaction of a call read earlier as `call`: it reads the grant only. */
  function MarkCall(db: Db, id: Id, call: Call, now: Time): CallUpdate {
    if MarkerAdmits(db, call, now) then SetMarker(db.calls, id, now) else CallUpdate(db.calls, 0)
  }

  // ---------------------------------------------------------------- grants

  /** `termsOk` is the answer of the checks of NewGrant on what no later step reads: selectors, data class, cost cap
      and purpose. */
  datatype GrantRequest = GrantRequest(
    scope: Scope, subject: Subject, key: DescriptorKey, digest: Id, methods: set<string>, expires: Option<Time>,
    termsOk: bool)

  /** The database keeps microseconds; instants count nanoseconds. */
  function Truncated(t: Time): Time {
    t - t % 1000
  }

  function StoredExpiry(expires: Option<Time>): Option<Time> {
    if expires.Some? then Some(Truncated(expires.value)) else None
  }

  predicate GrantAdmits(db: Db, req: GrantRequest, now: Time) {
    && req.key.server in db.servers
    && db.servers[req.key.server].tenant == req.scope.tenant
    && req.key in db.descriptors
    && db.descriptors[req.key].digest == req.digest
    && db.descriptors[req.key].state == Approved
    && (req.subject.ProjectSubject? ==> req.scope.project == Some(req.subject.project))
    && req.methods != {}
    && req.methods <= db.descriptors[req.key].methods
    && (req.expires.Some? ==> now < req.expires.value)
    && req.termsOk
  }

  function CreateGrant(db: Db, id: Id, req: GrantRequest, now: Time): Db {
    if id !in db.grants && GrantAdmits(db, req, now) then
      db.(grants := db.grants[id := Grant(req.scope.tenant, 1, req.subject, req.key.server, req.key.revision,
                                          req.digest,
                                          req.methods, StoredExpiry(req.expires), Pending, "", NoFence, None, NoCode)])
    else
      db
  }

  /** What Control answered to a registration. */
  datatype Registration = Receipt(receipt: string) | Refused | Uncertain

  function Registered(g: Grant, answer: Registration): Grant {
    match answer
    case Receipt(r) => g.(state := Active, receipt := r, code := NoCode)
    case Refused => g.(state := RegistrationFailed, code := RegistrationRefused)
    case Uncertain => g.(code := RegistrationUncertain)
  }

  /** register: the answer is recorded only on a grant that is still PENDING. */
  function RegisterGrant(db: Db, id: Id, answer: Registration): Db {
    if id in db.grants && db.grants[id].state == Pending then
      db.(grants := db.grants[id := Registered(db.grants[id], answer)])
    else
      db
  }

  /** revokeLocked. */
  function RevokedBy(g: Grant, reason: Code): Grant {
    g.(state := Revoking, code := if reason != NoCode then reason else g.code)
  }

  function RevokeGrant(db: Db, id: Id, tenant: Id, expectedRevision: nat, reason: Code): Db {
    if id in db.grants && db.grants[id].tenant == tenant && db.grants[id].revision == expectedRevision
        && !db.grants[id].Withdrawn() then
      db.(grants := db.grants[id := RevokedBy(db.grants[id], reason)])
    else
      db
  }

  function ExpireGrant(db: Db, id: Id, now: Time): Db {
    if id in db.grants && db.grants[id].state == Active && db.grants[id].expires.Some?
        && db.grants[id].expires.value <= now then
      db.(grants := db.grants[id := db.grants[id].(state := Expired)])
    else
      db
  }

  /** The listed grants that exist. */
  function Present(grants: map<Id, Grant>, ids: seq<Id>): seq<Id> {
    if ids == [] then []
    else
      var init, last := Present(grants, ids[..|ids| - 1]), ids[|ids| - 1];
      if last in grants then init + [last] else init
  }

  /** Control's barrier answer; it always names a fence. */
  datatype Barrier = Barrier(fence: Fence) {
    predicate Valid() { fence != NoFence }
  }

  /** The finalising transaction of `advance`: the open count was read before it. */
  function AdvanceGrant(db: Db, id: Id, b: Barrier, noneOpen: bool, now: Time): Db {
    if id in db.grants && db.grants[id].state == Revoking then
      var g := db.grants[id].(fence := b.fence);
      var done := b.fence == Converged && noneOpen;
      db.(grants := db.grants[id := if done then g.(state := Revoked, revokedAt := Some(now)) else g])
    else
      db
  }

  // ---------------------------------------------------------------- catalog

  /** Discover: the same digest answers the recorded revision, another one becomes the next revision. */
  function Discover(db: Db, server: Id, tenant: Id, digest: Id, methods: set<string>, actor: Id): Db {
    var s := if server in db.servers then db.servers[server] else Server(tenant, 0);
    if s.tenant != tenant then db
    else if exists k :: k in db.descriptors && k.server == server && db.descriptors[k].digest == digest then db
    else
      var key := DescriptorKey(server, s.currentRevision + 1);
      db.(servers := db.servers[server := s.(currentRevision := s.currentRevision + 1)],
          descriptors := db.descriptors[key := DescriptorRow(digest, methods, actor, ReviewPending)])
  }

  /** Review with CheckReview: the exact digest, never by the discoverer, only a revision awaiting review. */
  function Review(db: Db, key: DescriptorKey, tenant: Id, reviewer: Id, digest: Id, approve: bool): Db {
    if key.server in db.servers && db.servers[key.server].tenant == tenant && key in db.descriptors
       && db.descriptors[key].digest == digest && reviewer != db.descriptors[key].discoveredBy
       && db.descriptors[key].state == ReviewPending then
      db.(descriptors := db.descriptors[key := db.descriptors[key].(state := if approve then Approved else Rejected)])
    else
      db
  }

  /** The grants after a revision is withdrawn: its pending and active grants begin their revocation. */
  function GrantsWithout(grants: map<Id, Grant>, key: DescriptorKey): map<Id, Grant> {
    map id | id in grants ::
      if KeyOfGrant(grants[id]) == key && grants[id].Live() then RevokedBy(grants[id], DescriptorDisabled)
      else grants[id]
  }

  /** disableLocked. */
  function DisableLocked(db: Db, key: DescriptorKey): Db
    requires key in db.descriptors
  {
    db.(descriptors := db.descriptors[key := db.descriptors[key].(state := Disabled)],
        grants := GrantsWithout(db.grants, key))
  }

  function Disable(db: Db, key: DescriptorKey, tenant: Id): Db {
    if key.server in db.servers && db.servers[key.server].tenant == tenant && key in db.descriptors
       && db.descriptors[key].state != Disabled then
      DisableLocked(db, key)
    else
      db
  }

  /** Refresh.Accepted: a recorded drift withdraws the revision it found drifted, if it is still approved. */
  function AcceptDrift(db: Db, key: DescriptorKey): Db {
    if key in db.descriptors && db.descriptors[key].state == Approved then DisableLocked(db, key) else db
  }
}
