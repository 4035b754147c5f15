/** What each update and each transaction changes, column by column, and when: stated on the rows before and after. */
module Effects {
  import opened Basics
  import opened Rows
  import Sql
  import Store

  // ---------------------------------------------------------------- tool requests

  /** At most this call differs, and no call is gone. */
  ghost predicate OnlyCall(calls: map<Id, Call>, calls': map<Id, Call>, id: Id) {
    calls'.Keys == calls.Keys && forall c | c in calls && c != id :: calls'[c] == calls[c]
  }

  lemma AdmissionEffect(calls: map<Id, Call>, id: Id, state: CallState, dispatch: Id, code: Code, now: Time)
    ensures var u := Sql.SetAdmission(calls, id, state, dispatch, code, now);
      && OnlyCall(calls, u.calls, id)
      && (if id in calls && calls[id].state == Accepted
          then u.changed == 1
               && u.calls[id] == calls[id].(state := state, dispatch := Some(dispatch), code := code, updatedAt := now)
          else u.changed == 0 && u.calls == calls)
  {
  }

  lemma MarkerEffect(db: Db, id: Id, call: Call, now: Time)
    ensures var u := Sql.MarkCall(db, id, call, now);
      var admitted := id in db.calls && db.calls[id].state == Admitted && db.calls[id].marker.None?;
      var executable := call.grant in db.grants && db.grants[call.grant].revision == call.grantRevision
        && db.grants[call.grant].state == Active && db.grants[call.grant].receipt != ""
        && (db.grants[call.grant].expires == None || now < db.grants[call.grant].expires.value);
      && OnlyCall(db.calls, u.calls, id)
      && (u.changed == 1 <==> admitted && executable)
      && (u.changed == 1 ==> u.calls[id] == db.calls[id].(state := Sent, marker := Some(now), updatedAt := now))
      && (u.changed != 1 ==> u.changed == 0 && u.calls == db.calls)
  {
  }

  lemma OutcomeEffect(calls: map<Id, Call>, id: Id, state: CallState, code: Code, usage: Option<nat>,
                      expected: CallState, now: Time)
    ensures var u := Sql.SetOutcome(calls, id, state, code, usage, expected, now);
      && OnlyCall(calls, u.calls, id)
      && (if id in calls && calls[id].state == expected
          then u.changed == 1
               && u.calls[id] == calls[id].(state := state, code := code, usage := usage, updatedAt := now)
          else u.changed == 0 && u.calls == calls)
  {
  }

  lemma AbandonEffect(calls: map<Id, Call>, id: Id, code: Code, sentAge: Time, now: Time)
    ensures var u := Sql.SetAbandoned(calls, id, code, sentAge, now);
      var stale := id in calls && calls[id].state == Sent && calls[id].marker.Some?
          && now - calls[id].marker.value > sentAge;
      && OnlyCall(calls, u.calls, id)
      && (if stale then u.changed == 1 && u.calls[id] == calls[id].(state := Unknown, code := code, updatedAt := now)
          else u.changed == 0 && u.calls == calls)
  {
  }

  lemma ObservationEffect(calls: map<Id, Call>, id: Id, sequence: nat, now: Time)
    ensures var u := Sql.SetObserved(calls, id, sequence, now);
      && OnlyCall(calls, u.calls, id)
      && (if id in calls && calls[id].observations == sequence
          then u.calls[id] == calls[id].(observedAt := Some(now), observations := calls[id].observations + 1,
                                         updatedAt := now)
          else u.calls == calls)
  {
  }

  /** The caller is one the grant is for. */
  predicate CallerIsSubject(scope: Scope, subject: Subject) {
    && (subject.ProjectSubject? ==> scope.project == Some(subject.project))
    && (subject.ActorSubject? ==> scope.actor == subject.actor)
    && (subject.RoleSubject? ==> subject.role in scope.roles)
  }

  /** The call may be created: its grant is the caller's, at the revision named and executable, the tool is granted
      and in the approved revision the grant is bound to, arguments and route are in order, and no call of the tenant
      to the server is UNKNOWN. */
  ghost predicate MayCreate(db: Db, req: Sql.CallRequest, at: Time) {
    && req.grant in db.grants
    && var g := db.grants[req.grant];
    && g.tenant == req.scope.tenant && CallerIsSubject(req.scope, g.subject) && g.revision == req.grantRevision
    && g.state == Active && g.receipt != "" && (g.expires.Some? ==> at < g.expires.value)
    && req.tool in g.methods
    && var k := DescriptorKey(g.server, g.descriptorRevision);
    && k in db.descriptors && db.descriptors[k].state == Approved && db.descriptors[k].digest == g.descriptorDigest
    && req.tool in db.descriptors[k].methods && req.argumentsOk && req.routed
    && forall c | c in db.calls && db.calls[c].tenant == g.tenant && db.calls[c].server == g.server ::
        db.calls[c].state != Unknown
  }

  lemma CreateCallEffect(db: Db, id: Id, req: Sql.CallRequest, at: Time, now: Time)
    ensures var db' := Sql.CreateCall(db, id, req, at, now);
      if id !in db.calls && MayCreate(db, req, at) then
        && db' == db.(calls := db'.calls) && db'.calls.Keys == db.calls.Keys + {id}
        && (forall c | c in db.calls :: db'.calls[c] == db.calls[c])
        && var row, g := db'.calls[id], db.grants[req.grant];
        && row.tenant == g.tenant && row.grant == req.grant && row.grantRevision == g.revision && row.server == g.server
        && row.descriptorRevision == g.descriptorRevision && row.descriptorDigest == g.descriptorDigest
        && row.deadline == req.deadline && row.state == Accepted && row.dispatch == None && row.code == NoCode
        && row.marker == None && row.usage == None && row.observedAt == None && row.observations == 0
        && row.updatedAt == now
      else db' == db
  {
  }

  // ---------------------------------------------------------------- grants

  /** At most this grant differs. */
  ghost predicate OnlyGrant(db: Db, db': Db, id: Id) {
    && db' == db.(grants := db'.grants) && db'.grants.Keys == db.grants.Keys
    && forall g | g in db.grants && g != id :: db'.grants[g] == db.grants[g]
  }

  lemma RevokeEffect(db: Db, id: Id, tenant: Id, expectedRevision: nat, reason: Code)
    ensures var db' := Sql.RevokeGrant(db, id, tenant, expectedRevision, reason);
      if id in db.grants && db.grants[id].tenant == tenant && db.grants[id].revision == expectedRevision
         && db.grants[id].state != Revoking && db.grants[id].state != Revoked then
        && OnlyGrant(db, db', id)
        && var g, g' := db.grants[id], db'.grants[id];
        && g' == g.(state := Revoking, code := g'.code) && g'.code == (if reason == NoCode then g.code else reason)
      else db' == db
  {
  }

  lemma RegisterEffect(db: Db, id: Id, answer: Sql.Registration)
    ensures var db' := Sql.RegisterGrant(db, id, answer);
      if id in db.grants && db.grants[id].state == Pending then
        && OnlyGrant(db, db', id)
        && var g, g' := db.grants[id], db'.grants[id];
        match answer
        case Receipt(r) => g' == g.(state := Active, receipt := r, code := NoCode)
        case Refused => g' == g.(state := RegistrationFailed, code := RegistrationRefused)
        case Uncertain => g' == g.(code := RegistrationUncertain)
      else db' == db
  {
  }

  lemma AdvanceEffect(db: Db, id: Id, b: Sql.Barrier, noneOpen: bool, now: Time)
    ensures var db' := Sql.AdvanceGrant(db, id, b, noneOpen, now);
      if id in db.grants && db.grants[id].state == Revoking then
        && OnlyGrant(db, db', id)
        && var g, g' := db.grants[id], db'.grants[id];
        if b.fence == Converged && noneOpen then g' == g.(state := Revoked, fence := Converged, revokedAt := Some(now))
        else g' == g.(fence := b.fence)
      else db' == db
  {
  }

  lemma ExpireEffect(db: Db, id: Id, now: Time)
    ensures var db' := Sql.ExpireGrant(db, id, now);
      if id in db.grants && db.grants[id].state == Active && db.grants[id].expires.Some?
         && now >= db.grants[id].expires.value then
        OnlyGrant(db, db', id) && db'.grants[id] == db.grants[id].(state := Expired)
      else db' == db
  {
  }

  /** The request is for the approved revision it names, of the caller's tenant, with methods of it, for a future. */
  ghost predicate MayGrant(db: Db, req: Sql.GrantRequest, now: Time) {
    && req.key.server in db.servers && db.servers[req.key.server].tenant == req.scope.tenant
    && req.key in db.descriptors && db.descriptors[req.key].state == Approved
        && db.descriptors[req.key].digest == req.digest
    && (forall p: Id | req.subject == ProjectSubject(p) :: req.scope.project == Some(p))
    && (exists m :: m in req.methods) && (forall m | m in req.methods :: m in db.descriptors[req.key].methods)
    && (req.expires == None || now < req.expires.value) && req.termsOk
  }

  lemma CreateGrantEffect(db: Db, id: Id, req: Sql.GrantRequest, now: Time)
    ensures var db' := Sql.CreateGrant(db, id, req, now);
      if id !in db.grants && MayGrant(db, req, now) then
        && db' == db.(grants := db'.grants) && db'.grants.Keys == db.grants.Keys + {id}
        && (forall g | g in db.grants :: db'.grants[g] == db.grants[g])
        && var g := db'.grants[id];
        && g.tenant == req.scope.tenant && g.revision == 1 && g.subject == req.subject && g.server == req.key.server
        && g.descriptorRevision == req.key.revision && g.descriptorDigest == req.digest && g.methods == req.methods
        && (g.expires.Some? <==> req.expires.Some?)
        && (g.expires.Some? ==> g.expires.value % 1000 == 0 && 0 <= req.expires.value - g.expires.value < 1000)
        && g.state == Pending && g.receipt == "" && g.fence == NoFence && g.revokedAt == None && g.code == NoCode
      else db' == db
  {
    assert MayGrant(db, req, now) <==> Sql.GrantAdmits(db, req, now);
  }

  // ---------------------------------------------------------------- descriptors

  /** At most this revision differs. */
  ghost predicate OnlyRevision(db: Db, db': Db, key: DescriptorKey) {
    && db'.descriptors.Keys == db.descriptors.Keys
    && forall k | k in db.descriptors && k != key :: db'.descriptors[k] == db.descriptors[k]
  }

  lemma ReviewEffect(db: Db, key: DescriptorKey, tenant: Id, reviewer: Id, digest: Id, approve: bool)
    ensures var db' := Sql.Review(db, key, tenant, reviewer, digest, approve);
      if key in db.descriptors && db.descriptors[key].state == ReviewPending && db.descriptors[key].digest == digest
         && db.descriptors[key].discoveredBy != reviewer
         && key.server in db.servers && db.servers[key.server].tenant == tenant then
        && db' == db.(descriptors := db'.descriptors) && OnlyRevision(db, db', key)
        && (approve ==> db'.descriptors[key] == db.descriptors[key].(state := Approved))
        && (!approve ==> db'.descriptors[key] == db.descriptors[key].(state := Rejected))
      else db' == db
  {
  }

  /** A server not seen before belongs to whoever discovers it. */
  lemma DiscoverEffect(db: Db, server: Id, tenant: Id, digest: Id, methods: set<string>, actor: Id)
    ensures var db' := Sql.Discover(db, server, tenant, digest, methods, actor);
      var own := server in db.servers ==> db.servers[server].tenant == tenant;
      var known := exists k :: k in db.descriptors && k.server == server && db.descriptors[k].digest == digest;
      if own && !known then
        var revision := 1 + if server in db.servers then db.servers[server].currentRevision else 0;
        var key := DescriptorKey(server, revision);
        && db'.calls == db.calls && db'.grants == db.grants
        && server in db'.servers && db'.servers[server] == Server(tenant, revision)
        && db'.servers.Keys == db.servers.Keys + {server}
        && (forall x | x in db.servers && x != server :: db'.servers[x] == db.servers[x])
        && db'.descriptors.Keys == db.descriptors.Keys + {key}
        && (forall k | k in db.descriptors && k != key :: db'.descriptors[k] == db.descriptors[k])
        && db'.descriptors[key] == DescriptorRow(digest, methods, actor, ReviewPending)
      else db' == db
  {
  }

  /** The revision is withdrawn, and with it exactly its pending and active grants. */
  ghost predicate Withdrawn(db: Db, db': Db, key: DescriptorKey) {
    && key in db.descriptors && key in db'.descriptors && OnlyRevision(db, db', key)
    && db'.descriptors[key] == db.descriptors[key].(state := Disabled)
    && db'.calls == db.calls && db'.servers == db.servers && db'.grants.Keys == db.grants.Keys
    && forall g | g in db.grants ::
         var was := db.grants[g];
         if was.server == key.server && was.descriptorRevision == key.revision
             && (was.state == Pending || was.state == Active)
         then db'.grants[g] == was.(state := Revoking, code := DescriptorDisabled)
         else db'.grants[g] == was
  }

  lemma DisableEffect(db: Db, key: DescriptorKey, tenant: Id)
    ensures var db' := Sql.Disable(db, key, tenant);
      if key in db.descriptors && db.descriptors[key].state != Disabled
         && key.server in db.servers && db.servers[key.server].tenant == tenant
      then Withdrawn(db, db', key) else db' == db
  {
  }

  lemma DriftEffect(db: Db, key: DescriptorKey)
    ensures var db' := Sql.AcceptDrift(db, key);
      if key in db.descriptors && db.descriptors[key].state == Approved then Withdrawn(db, db', key) else db' == db
  {
  }

  // ---------------------------------------------------------------- a stop

  /** The tracked calls still marked as sent are UNKNOWN without usage; every other row is as it was. */
  lemma StopEffect(calls: map<Id, Call>, live: set<Id>, now: Time)
    ensures var after := Store.Drained(calls, live, now);
      && after.Keys == calls.Keys
      && (forall c | c in calls && c in live && calls[c].state == Sent ::
            after[c] == calls[c].(state := Unknown, code := OutcomeUnknown, usage := None, updatedAt := now))
      && (forall c | c in calls && !(c in live && calls[c].state == Sent) :: after[c] == calls[c])
    ensures forall c :: c in Store.SentAmong(calls, live) <==> c in live && c in calls && calls[c].state == Sent
  {
  }
}
