/** The tables as the processes change them: one object whose methods are the guarded
    updates and the transaction bodies, each proved to be the function of the tables the
    protocol steps by; and the call side of one process with its drain. */
module Store {
  import opened Basics
  import opened Rows
  import Sql

  class Tables {
    var calls: map<Id, Call>
    var grants: map<Id, Grant>
    var descriptors: map<DescriptorKey, DescriptorRow>
    var servers: map<Id, Server>

    constructor ()
      ensures View() == Db(map[], map[], map[], map[])
    {
      calls, grants, descriptors, servers := map[], map[], map[], map[];
    }

    function View(): Db
      reads this
    {
      Db(calls, grants, descriptors, servers)
    }

    // ---------------------------------------------------------------- guarded updates of tool_requests

    method SetToolRequestAdmission(id: Id, state: CallState, dispatch: Id, code: Code, now: Time) returns (n: nat)
      modifies this`calls
      ensures Sql.CallUpdate(calls, n) == Sql.SetAdmission(old(calls), id, state, dispatch, code, now)
    {
      n := 0;
      if id in calls && calls[id].state == Accepted {
        calls := calls[id := calls[id].(state := state, dispatch := Some(dispatch), code := code, updatedAt := now)];
        n := 1;
      }
    }

    method SetToolRequestMarker(id: Id, now: Time) returns (n: nat)
      modifies this`calls
      ensures Sql.CallUpdate(calls, n) == Sql.SetMarker(old(calls), id, now)
    {
      n := 0;
      if id in calls && calls[id].state == Admitted && calls[id].marker.None? {
        calls := calls[id := calls[id].(state := Sent, marker := Some(now), updatedAt := now)];
        n := 1;
      }
    }

    method SetToolRequestOutcome(id: Id, state: CallState, code: Code, usage: Option<nat>, expected: CallState,
                                 now: Time) returns (n: nat)
      modifies this`calls
      ensures calls == Sql.SetOutcome(old(calls), id, state, code, usage, expected, now).calls
      ensures n == Sql.SetOutcome(old(calls), id, state, code, usage, expected, now).changed
    {
      n := 0;
      if id in calls && calls[id].state == expected {
        calls := calls[id := calls[id].(state := state, code := code, usage := usage, updatedAt := now)];
        n := 1;
      }
    }

    method SetAbandonedToolRequestUnknown(id: Id, code: Code, sentAge: Time, now: Time) returns (n: nat)
      modifies this`calls
      ensures Sql.CallUpdate(calls, n) == Sql.SetAbandoned(old(calls), id, code, sentAge, now)
    {
      n := 0;
      if id in calls && calls[id].state == Sent && calls[id].marker.Some? && calls[id].marker.value < now - sentAge {
        calls := calls[id := calls[id].(state := Unknown, code := code, updatedAt := now)];
        n := 1;
      }
    }

    method SetToolRequestObserved(id: Id, sequence: nat, now: Time)
      modifies this`calls
      ensures calls == Sql.SetObserved(old(calls), id, sequence, now).calls
    {
      if id in calls && calls[id].observations == sequence {
        calls := calls[id := calls[id].(observedAt := Some(now), observations := sequence + 1, updatedAt := now)];
      }
    }

    /** The open calls of a grant revision, counted row by row. */
    method CountOpenToolRequests(grant: Id, revision: nat) returns (n: nat)
      ensures n == |Sql.OpenCalls(calls, grant, revision)|
      ensures n == 0 <==> Sql.NoOpenCall(calls, grant, revision)
    {
      var rest := calls.Keys;
      ghost var open := Sql.OpenCalls(calls, grant, revision);
      n := 0;
      while rest != {}
        invariant rest <= calls.Keys && n == |open - rest|
        decreases rest
      {
        var c :| c in rest;
        if calls[c].grant == grant && calls[c].grantRevision == revision && calls[c].Open() {
          assert open - (rest - {c}) == (open - rest) + {c};
          n := n + 1;
        } else {
          assert open - (rest - {c}) == open - rest;
        }
        rest := rest - {c};
      }
      assert open - rest == open;
      Sql.NoneOpenIsEmpty(calls, grant, revision);
    }

    // ---------------------------------------------------------------- transaction bodies

    /** Calls.Create inside its transaction. */
    method CreateCall(id: Id, req: Sql.CallRequest, at: Time, now: Time) returns (inserted: bool)
      modifies this`calls
      ensures View() == Sql.CreateCall(old(View()), id, req, at, now)
      ensures inserted <==> id !in old(calls) && Sql.CreateAdmits(old(View()), req, at)
    {
      inserted := false;
      if req.grant !in grants { return; }
      var g := grants[req.grant];
      if g.tenant != req.scope.tenant || !CallerMaySend(req.scope, g) { return; }
      if g.revision != req.grantRevision { return; }
      if !g.Executable(at) || req.tool !in g.methods { return; }
      var key := KeyOfGrant(g);
      if key !in descriptors || descriptors[key].state != Approved
          || descriptors[key].digest != g.descriptorDigest { return; }
      if req.tool !in descriptors[key].methods || !req.argumentsOk || !req.routed { return; }
      if Sql.Restricted(calls, g.tenant, g.server) { return; }
      if id in calls { return; }
      calls := calls[id := Sql.NewCall(g, req.grant, req.deadline, now)];
      inserted := true;
    }

    /** The marker transaction of Calls.send. */
    method MarkCall(id: Id, call: Call, now: Time) returns (marked: bool)
      modifies this`calls
      ensures calls == Sql.MarkCall(old(View()), id, call, now).calls
      ensures marked <==> Sql.MarkCall(old(View()), id, call, now).changed == 1
    {
      marked := false;
      if call.grant !in grants { return; }
      var cur := grants[call.grant];
      if cur.revision != call.grantRevision || !cur.Executable(now) { return; }
      var n := SetToolRequestMarker(id, now);
      marked := n == 1;
    }

    /** Grants.Create inside its transaction. */
    method CreateGrant(id: Id, req: Sql.GrantRequest, now: Time)
      modifies this`grants
      ensures View() == Sql.CreateGrant(old(View()), id, req, now)
    {
      if req.key.server !in servers || servers[req.key.server].tenant != req.scope.tenant
          || req.key !in descriptors { return; }
      var d := descriptors[req.key];
      if d.digest != req.digest || d.state != Approved { return; }
      if req.subject.ProjectSubject? && req.scope.project != Some(req.subject.project) { return; }
      if req.methods == {} || !(req.methods <= d.methods) { return; }
      if req.expires.Some? && req.expires.value <= now { return; }
      if !req.termsOk { return; }
      if id in grants { return; }
      grants := grants[id := Grant(req.scope.tenant, 1, req.subject, req.key.server, req.key.revision, d.digest,
                                   req.methods, Sql.StoredExpiry(req.expires), Pending, "", NoFence, None, NoCode)];
    }

    /** Grants.register after Control's answer. */
    method RegisterGrant(id: Id, answer: Sql.Registration)
      modifies this`grants
      ensures View() == Sql.RegisterGrant(old(View()), id, answer)
    {
      if id !in grants || grants[id].state != Pending { return; }
      var next := grants[id];
      match answer {
        case Receipt(receipt) => next := next.(state := Active, receipt := receipt, code := NoCode);
        case Refused => next := next.(state := RegistrationFailed, code := RegistrationRefused);
        case Uncertain => next := next.(code := RegistrationUncertain);
      }
      grants := grants[id := next];
    }

    /** revokeLocked on a grant row the transaction holds. */
    method RevokeLocked(id: Id, reason: Code)
      requires id in grants
      modifies this`grants
      ensures grants == old(grants)[id := Sql.RevokedBy(old(grants[id]), reason)]
    {
      var next := grants[id].(state := Revoking);
      if reason != NoCode { next := next.(code := reason); }
      grants := grants[id := next];
    }

    /** Grants.Revoke inside its transaction. */
    method RevokeGrant(id: Id, tenant: Id, expectedRevision: nat, reason: Code)
      modifies this`grants
      ensures View() == Sql.RevokeGrant(old(View()), id, tenant, expectedRevision, reason)
    {
      if id !in grants || grants[id].tenant != tenant || grants[id].revision != expectedRevision { return; }
      if grants[id].Withdrawn() { return; }
      RevokeLocked(id, reason);
    }

    /** The finalising transaction of Grants.advance; `open` was counted before it. */
    method AdvanceGrant(id: Id, b: Sql.Barrier, open: nat, now: Time)
      modifies this`grants
      ensures View() == Sql.AdvanceGrant(old(View()), id, b, open == 0, now)
    {
      if id !in grants || grants[id].state != Revoking { return; }
      var next := grants[id].(fence := b.fence);
      if b.fence == Converged && open == 0 {
        next := next.(state := Revoked, revokedAt := Some(now));
      }
      grants := grants[id := next];
    }

    /** The expiry pass of Grants.Reconcile over the listed grants; it counts every one whose row it could lock. */
    method ExpireGrants(ids: seq<Id>, now: Time) returns (moved: nat)
      modifies this`grants
      ensures grants.Keys == old(grants.Keys)
      ensures forall g | g in old(grants) ::
                grants[g] == if g in ids then Sql.ExpireGrant(old(View()), g, now).grants[g] else old(grants[g])
      ensures moved == |Sql.Present(old(grants), ids)|
    {
      moved := 0;
      for i := 0 to |ids|
        invariant grants.Keys == old(grants.Keys) && moved == |Sql.Present(old(grants), ids[..i])|
        invariant forall g | g in old(grants) ::
                    grants[g] == if g in ids[..i] then Sql.ExpireGrant(old(View()), g, now).grants[g]
                      else old(grants[g])
      {
        var id := ids[i];
        assert ids[..i + 1] == ids[..i] + [id] && ids[..i + 1][..i] == ids[..i];
        if id !in grants { continue; }
        if grants[id].state == Active && grants[id].expires.Some? && grants[id].expires.value <= now {
          grants := grants[id := grants[id].(state := Expired)];
        }
        moved := moved + 1;
      }
      assert ids[..|ids|] == ids;
    }

    /** Catalog.Discover inside its transaction. */
    method Discover(server: Id, tenant: Id, digest: Id, methods: set<string>, actor: Id)
      modifies this`servers, this`descriptors
      ensures View() == Sql.Discover(old(View()), server, tenant, digest, methods, actor)
    {
      var s := if server in servers then servers[server] else Server(tenant, 0);
      if s.tenant != tenant { return; }
      if exists k :: k in descriptors && k.server == server && descriptors[k].digest == digest { return; }
      var key := DescriptorKey(server, s.currentRevision + 1);
      servers := servers[server := s.(currentRevision := s.currentRevision + 1)];
      descriptors := descriptors[key := DescriptorRow(digest, methods, actor, ReviewPending)];
    }

    /** Catalog.Review inside its transaction. */
    method Review(key: DescriptorKey, tenant: Id, reviewer: Id, digest: Id, approve: bool)
      modifies this`descriptors
      ensures View() == Sql.Review(old(View()), key, tenant, reviewer, digest, approve)
    {
      if key.server !in servers || servers[key.server].tenant != tenant || key !in descriptors { return; }
      var d := descriptors[key];
      if d.digest != digest || reviewer == d.discoveredBy || d.state != ReviewPending { return; }
      descriptors := descriptors[key := d.(state := if approve then Approved else Rejected)];
    }

    /** disableLocked: the state first, then the revocation of each pending or active grant of the revision. */
    method DisableLocked(key: DescriptorKey)
      requires key in descriptors
      modifies this`descriptors, this`grants
      ensures View() == Sql.DisableLocked(old(View()), key)
    {
      descriptors := descriptors[key := descriptors[key].(state := Disabled)];
      ghost var before := grants;
      var ids := set g | g in grants && KeyOfGrant(grants[g]) == key && grants[g].Live();
      while ids != {}
        invariant descriptors == old(descriptors)[key := old(descriptors)[key].(state := Disabled)]
        invariant grants.Keys == before.Keys
        invariant forall g | g in ids :: g in before && KeyOfGrant(before[g]) == key && before[g].Live()
        invariant forall g | g in before ::
            grants[g] == if g in ids then before[g] else Sql.GrantsWithout(before, key)[g]
        decreases ids
      {
        var id :| id in ids;
        RevokeIn(id, DescriptorDisabled);
        ids := ids - {id};
      }
      assert grants == Sql.GrantsWithout(before, key);
    }

    /** revokeIn: a grant already in the barrier is left alone. */
    method RevokeIn(id: Id, reason: Code)
      requires id in grants
      modifies this`grants
      ensures grants == if old(grants[id]).Withdrawn() then old(grants)
        else old(grants)[id := Sql.RevokedBy(old(grants[id]), reason)]
    {
      if grants[id].Withdrawn() { return; }
      RevokeLocked(id, reason);
    }

    /** Catalog.Disable inside its transaction. */
    method Disable(key: DescriptorKey, tenant: Id)
      modifies this`descriptors, this`grants
      ensures View() == Sql.Disable(old(View()), key, tenant)
    {
      if key.server !in servers || servers[key.server].tenant != tenant || key !in descriptors { return; }
      if descriptors[key].state == Disabled { return; }
      DisableLocked(key);
    }

    /** Refresh.Accepted for a recorded drift. */
    method AcceptDrift(key: DescriptorKey)
      modifies this`descriptors, this`grants
      ensures View() == Sql.AcceptDrift(old(View()), key)
    {
      if key !in descriptors || descriptors[key].state != Approved { return; }
      DisableLocked(key);
    }
  }

  /** The call side of one process: what it still tracks, and its stop. */
  class Process {
    const tables: Tables
    var closing: bool
    var live: set<Id>

    constructor (tables: Tables)
      ensures this.tables == tables && !closing && live == {}
    {
      this.tables := tables;
      closing, live := false, {};
    }

    method Track(id: Id)
      modifies this`live
      ensures live == old(live) + {id}
    {
      live := live + {id};
    }

    method Untrack(id: Id)
      modifies this`live
      ensures live == old(live) - {id}
    {
      live := live - {id};
    }

    /** Shutdown: when the drain ends by itself nothing is left to do. Otherwise every tracked call still marked as
        sent is recorded UNKNOWN and reported, except those whose update failed, and nothing else changes; one whose
        row could not be read back is not reported. Calls admitted but never marked are left to the reconciler. */
    method Shutdown(drained: bool, failing: set<Id>, unread: set<Id>, now: Time)
      returns (recorded: nat, reported: set<Id>)
      modifies this`closing, tables`calls
      ensures closing
      ensures tables.calls == if drained then old(tables.calls) else Drained(old(tables.calls), live - failing, now)
      ensures reported == if drained then {} else SentAmong(old(tables.calls), live - failing) - unread
      ensures recorded == if drained then 0 else |SentAmong(old(tables.calls), live - failing)|
    {
      closing := true;
      if drained { return 0, {}; }
      var marked := RecordUnknown(failing, now);
      recorded, reported := |marked|, marked - unread;
    }

    /** The remaining calls of a stop, one by one. */
    method RecordUnknown(failing: set<Id>, now: Time) returns (marked: set<Id>)
      modifies tables`calls
      ensures tables.calls == Drained(old(tables.calls), live - failing, now)
      ensures marked == SentAmong(old(tables.calls), live - failing)
    {
      marked := {};
      var remaining := live;
      ghost var before, handled: set<Id> := tables.calls, {};
      assert Drained(before, {}, now) == before;
      while remaining != {}
        invariant handled !! remaining && handled + (remaining - failing) == live - failing
        invariant tables.calls == Drained(before, handled, now) && marked == SentAmong(before, handled)
        decreases remaining
      {
        hide Drained, SentAmong;
        var id :| id in remaining;
        remaining := remaining - {id};
        if id in failing { continue; }
        DrainOne(before, handled, id, now);
        handled := handled + {id};
        var n := tables.SetToolRequestOutcome(id, Unknown, OutcomeUnknown, None, Sent, now);
        if n == 1 { marked := marked + {id}; }
      }
    }
  }

  /** The tracked calls a stop finds still marked as sent. */
  function SentAmong(calls: map<Id, Call>, live: set<Id>): set<Id> {
    set c | c in live && c in calls && calls[c].state == Sent
  }

  /** The rows after a stop. */
  function Drained(calls: map<Id, Call>, live: set<Id>, now: Time): map<Id, Call> {
    map c | c in calls ::
      if c in live && calls[c].state == Sent
        then calls[c].(state := Unknown, code := OutcomeUnknown, usage := None, updatedAt := now)
      else calls[c]
  }

  /** One more tracked call. */
  lemma DrainOne(calls: map<Id, Call>, handled: set<Id>, id: Id, now: Time)
    requires id !in handled
    ensures var u := Sql.SetOutcome(Drained(calls, handled, now), id, Unknown, OutcomeUnknown, None, Sent, now);
      && u.calls == Drained(calls, handled + {id}, now)
      && id !in SentAmong(calls, handled)
      && SentAmong(calls, handled + {id}) == SentAmong(calls, handled) + if u.changed == 1 then {id} else {}
  {
    var more := SentAmong(calls, handled + {id});
    if id in calls && calls[id].state == Sent {
      assert more == SentAmong(calls, handled) + {id};
    } else {
      assert more == SentAmong(calls, handled);
    }
  }
}
