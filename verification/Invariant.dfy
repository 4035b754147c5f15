/** What every committed state keeps, object by object, and what every step of one
    thread guarantees to all the others. */
module Invariant {
  import opened Basics
  import opened Rows
  import opened Protocol
  import Sql

  // ---------------------------------------------------------------- one object

  /** The columns of a request no update writes. */
  predicate SameRequest(a: Call, b: Call) {
    && a.tenant == b.tenant && a.grant == b.grant && a.grantRevision == b.grantRevision && a.server == b.server
    && a.descriptorRevision == b.descriptorRevision && a.descriptorDigest == b.descriptorDigest
        && a.deadline == b.deadline
  }

  /** The columns of a grant no update writes. */
  predicate SameTerms(a: Grant, b: Grant) {
    && a.tenant == b.tenant && a.revision == b.revision && a.server == b.server
        && a.descriptorRevision == b.descriptorRevision
    && a.descriptorDigest == b.descriptorDigest && a.methods == b.methods && a.expires == b.expires
        && a.subject == b.subject
  }

  /** A call is bound as its grant is. */
  predicate BoundToGrant(db: Db, r: Call) {
    && r.grant in db.grants
    && var g := db.grants[r.grant];
    r.tenant == g.tenant && r.grantRevision == g.revision && KeyOfCall(r) == KeyOfGrant(g)
        && r.descriptorDigest == g.descriptorDigest
  }

  predicate UsageFits(r: Call) {
    match r.state
    case Canceled => r.usage == Some(0)
    case Succeeded | Failed => r.usage == None || r.usage == Some(1)
    case _ => r.usage == None
  }

  ghost predicate WasSent(s: State, c: Id) {
    exists i :: 0 <= i < |s.sends| && s.sends[i].call == c
  }

  /** What a reply of the tool means for the call: a result is success, a tool error and any other answer are failures,
      and without an outcome the call is unknown. */
  predicate Means(reply: Reply, state: CallState, code: Code) {
    match reply
    case Result => state == Succeeded && code == NoCode
    case ToolError => state == Failed && code == ToolFailed
    case Answer(told) => state == Failed && code == told
    case NoOutcome(told) => state == Unknown && code == told
  }

  /** The thread sent the call and was answered with what the outcome says. */
  ghost predicate SentAs(s: State, t: Tid, c: Id, state: CallState, code: Code) {
    exists i :: 0 <= i < |s.sends| && s.sends[i].call == c && s.sends[i].sender == t
                && Means(s.sends[i].reply, state, code)
  }

  /** The columns of one row agree with its state. */
  predicate RowOk(r: Call) {
    && (r.marker.Some? <==> r.Marked())
    && (r.dispatch.None? <==> r.state == Accepted)
    && UsageFits(r)
    && (r.observations == 0 <==> r.observedAt.None?)
    && (!r.Reportable() ==> r.observations == 0)
  }

  /** One row agrees with its grant, Control's record and the history. */
  ghost predicate CallOk(s: State, c: Id)
    requires c in s.db.calls
  {
    var r := s.db.calls[c];
    && RowOk(r)
    && BoundToGrant(s.db, r)
    && (s.db.grants[r.grant].state == Revoked ==> r.Terminal())
    && (r.dispatch.Some? ==> c in s.control && s.control[c].id == r.dispatch.value)
    && (c in s.marks <==> r.Marked())
    && (c in s.marks && r.marker.Some? ==> s.marks[c].bound <= r.marker.value + s.opts.sendTimeout)
    && (c in s.marks ==> s.marks[c].bound <= r.deadline)
    && (c in s.exits <==> r.Reportable())
    && (c in s.exits ==> s.exits[c].report.sequence == 0 && s.exits[c].report.dispatch == r.dispatch.value)
    && (c in s.exits && r.observations == 0 && c !in s.early ==> s.exits[c].report == ReportOf(r))
    && (r.usage == Some(1) ==> WasSent(s, c))
  }

  /** A pending or active grant is bound to an approved revision with the same digest. */
  predicate GrantOk(db: Db, g: Grant) {
    g.Live() ==>
      && KeyOfGrant(g) in db.descriptors
      && db.descriptors[KeyOfGrant(g)].state == Approved
      && db.descriptors[KeyOfGrant(g)].digest == g.descriptorDigest
  }

  predicate DescriptorOk(db: Db, k: DescriptorKey) {
    k.server in db.servers && k.revision <= db.servers[k.server].currentRevision
  }

  /** No report beyond the first sequence has been filed for a call. */
  ghost predicate NoLateReport(s: State, c: Id) {
    forall f | f in s.reports && f.call == c :: f.report.sequence == 0
  }

  /** The thread holds Control's permission for the call. */
  predicate Holds(s: State, t: Tid, c: Id) {
    c in s.control && s.control[c].holder == Some(t)
  }

  predicate Read(s: State, c: Id, row: Call) {
    c in s.db.calls && SameRequest(row, s.db.calls[c])
  }

  /** What a thread knows at each point. */
  ghost predicate ThreadOk(s: State, t: Tid, pc: Pc) {
    match pc
    case Creating(c, req, at) => at <= s.now
    case Loading(c) => c in s.db.calls
    case Admitting(c, row) => Read(s, c, row)
    case Recording(c, row, d, verdict) =>
      Read(s, c, row) && c in s.control && s.control[c].id == d && (verdict.Permitted? ==> Holds(s, t, c))
    case Qualifying(c, row) => Read(s, c, row) && Holds(s, t, c)
    case Opening(c, row, bound) =>
      Read(s, c, row) && Holds(s, t, c) && bound <= s.now + s.opts.sendTimeout && bound <= row.deadline
    case Marking(c, row, bound) =>
      Read(s, c, row) && Holds(s, t, c) && bound <= s.now + s.opts.sendTimeout && bound <= row.deadline
    case Sending(c, bound) =>
      c in s.db.calls && Holds(s, t, c) && c in s.marks && s.marks[c] == Marker(t, bound) && !WasSent(s, c)
    case Concluding(c, state, code) =>
      && c in s.db.calls && WasSent(s, c) && SentAs(s, t, c, state, code) && c in s.marks && s.marks[c].sender == t
      && (state.Succeeded? || state.Failed? || state.Unknown?)
    case Canceling(c, code) => c in s.db.calls
    case Abandoning(c) => c in s.db.calls
    case Stopping(c) => c in s.db.calls
    case Reloading(c) => c in s.db.calls && c in s.exits && s.exits[c].mover == t && NoLateReport(s, c)
    case Observing(c, row, operator) => Read(s, c, row) && ObserverOk(s, t, c, row) && (operator ==> c in s.risky)
    case Acknowledging(c, row, operator) => c in s.db.calls && c in s.exits && (operator ==> c in s.risky)
    case Resolving(c, row) => SettlerOk(s, c)
    case Settling(c, row, state, code) => SettlerOk(s, c) && (state.Succeeded? || state.Failed?)
    case Registering(g) => g in s.db.grants
    case Registered(g, answer) => g in s.db.grants
    case Fencing(g, r) => g in s.db.grants && s.db.grants[g].Withdrawn() && r == s.db.grants[g].revision
    case Counting(g, r, b) => g in s.db.grants && s.db.grants[g].Withdrawn() && r == s.db.grants[g].revision
        && b.Valid()
    case Finalizing(g, r, b, noneOpen) =>
      && g in s.db.grants && s.db.grants[g].Withdrawn() && r == s.db.grants[g].revision && b.Valid()
      && (noneOpen ==> Sql.NoOpenCall(s.db.calls, g, r))
  }

  /** Who may settle an UNKNOWN call: anybody once an observation of it is recorded, before that
      only an operator run that started while none was. */
  predicate SettlerOk(s: State, c: Id) {
    c in s.db.calls && (s.db.calls[c].observedAt.Some? || c in s.risky)
  }

  /** A row about to be reported: at the first sequence it is what the call became,
      at a later one it was read by the one thread that ended the unreported part. */
  ghost predicate ObserverOk(s: State, t: Tid, c: Id, row: Call) {
    && c in s.exits
    && row.Reportable() && row.dispatch.Some? && c in s.control && row.dispatch.value == s.control[c].id
    && (row.observations == 0 && c !in s.early ==> ReportOf(row) == s.exits[c].report)
    && (row.observations > 0 ==> s.exits[c].mover == t && NoLateReport(s, c))
  }

  // ---------------------------------------------------------------- the whole state

  ghost predicate CallsOk(s: State) {
    forall c | c in s.db.calls :: CallOk(s, c)
  }

  ghost predicate GrantsOk(db: Db) {
    && (forall g | g in db.grants :: GrantOk(db, db.grants[g]))
    && (forall k | k in db.descriptors :: DescriptorOk(db, k))
  }

  ghost predicate ControlOk(s: State) {
    && (forall c, d | c in s.control && d in s.control && s.control[c].id == s.control[d].id :: c == d)
    && (forall c | c in s.control && s.control[c].holder.Some? :: s.control[c].holder.value < s.nextTid)
  }

  ghost predicate SendsOk(s: State) {
    && (forall i | 0 <= i < |s.sends| ::
          var e := s.sends[i];
          e.call in s.db.calls && e.call in s.marks && s.marks[e.call].sender == e.sender && Holds(s, e.sender, e.call))
    && (forall i, j | 0 <= i < j < |s.sends| :: s.sends[i].call != s.sends[j].call)
  }

  ghost predicate FiledOk(s: State, f: Filed) {
    && f.call in s.db.calls && f.call in s.exits && f.call in s.control && f.report.dispatch == s.control[f.call].id
    && (f.report.sequence == 0 && f.call !in s.early ==> f.report == s.exits[f.call].report)
  }

  ghost predicate ReportsOk(s: State) {
    && (forall f | f in s.reports :: FiledOk(s, f))
    && (forall f, f' | f in s.reports && f' in s.reports && f.call == f'.call && f.report.sequence > 0
        && f'.report.sequence > 0 :: f == f')
  }

  ghost predicate ThreadsOk(s: State) {
    forall t | t in s.threads :: t < s.nextTid && ThreadOk(s, t, s.threads[t])
  }

  ghost predicate Inv(s: State) {
    CallsOk(s) && GrantsOk(s.db) && ControlOk(s) && SendsOk(s) && ReportsOk(s) && ThreadsOk(s) && HistoryOk(s)
  }

  /** The history names only recorded calls; only a risky operator run settles early. */
  ghost predicate HistoryOk(s: State) {
    s.marks.Keys <= s.db.calls.Keys && s.exits.Keys <= s.db.calls.Keys && s.early <= s.risky
  }

  // ---------------------------------------------------------------- what a step guarantees

  /** How far one row may move. */
  predicate Later(a: Call, b: Call) {
    && SameRequest(a, b)
    && (a.dispatch.Some? ==> b.dispatch == a.dispatch)
    && (a.marker.Some? ==> b.marker == a.marker)
    && (a.Terminal() ==> b.state == a.state && b.usage == a.usage && b.code == a.code)
    && (a.Reportable() ==> b.Reportable())
    && (a.Marked() ==> b.Marked())
    && a.observations <= b.observations
    && (a.observedAt.Some? ==> b.observedAt.Some?)
  }

  /** The transitions of a call. */
  predicate Edge(a: CallState, b: CallState) {
    match a
    case Accepted => b.Admitted? || b.Denied?
    case Admitted => b.Sent? || b.Canceled?
    case Sent => b.Succeeded? || b.Failed? || b.Unknown?
    case Unknown => b.Succeeded? || b.Failed?
    case _ => false
  }

  /** How one step may move a row: forward, along one transition or none. */
  predicate Advances(a: Call, b: Call) {
    Later(a, b) && (b.state == a.state || Edge(a.state, b.state))
  }

  predicate LaterGrant(a: Grant, b: Grant) {
    && SameTerms(a, b)
    && (a.Withdrawn() ==> b.Withdrawn())
    && (a.state == Revoked ==> b.state == Revoked)
    && (b.state == Pending ==> a.state == Pending)
    && (b.state == Active ==> a.state == Pending || (a.state == Active && a.receipt == b.receipt))
  }

  predicate LaterDescriptor(a: DescriptorRow, b: DescriptorRow) {
    a.digest == b.digest && (a.state == Disabled ==> b.state == Disabled)
  }

  ghost predicate CallsEvolve(s: State, s': State) {
    && (forall c | c in s.db.calls :: c in s'.db.calls && Advances(s.db.calls[c], s'.db.calls[c]))
    && (forall c | c in s'.db.calls && c !in s.db.calls ::
          s'.db.calls[c].state == Accepted && s'.db.calls[c].grant in s'.db.grants
              && !s'.db.grants[s'.db.calls[c].grant].Withdrawn())
  }

  ghost predicate GrantsEvolve(db: Db, db': Db) {
    && (forall g | g in db.grants :: g in db'.grants && LaterGrant(db.grants[g], db'.grants[g]))
    && (forall g | g in db'.grants && g !in db.grants :: db'.grants[g].state == Pending)
    && (forall k | k in db.descriptors ::
        k in db'.descriptors && LaterDescriptor(db.descriptors[k], db'.descriptors[k]))
  }

  /** A marker is new only when it committed with the grant of its call executable. */
  ghost predicate MarksEvolve(s: State, s': State, actor: Tid) {
    && (forall c | c in s.marks :: c in s'.marks && s'.marks[c] == s.marks[c])
    && (forall c | c in s'.marks && c !in s.marks ::
          && s'.marks[c].sender == actor
          && c in s.db.calls && s.db.calls[c].grant in s.db.grants
              && s.db.grants[s.db.calls[c].grant].Executable(s.now))
  }

  ghost predicate HistoryEvolves(s: State, s': State, actor: Tid) {
    && (forall c | c in s.control :: c in s'.control && s'.control[c] == s.control[c])
    && (forall c | c in s.exits :: c in s'.exits && s'.exits[c] == s.exits[c])
    && s.early <= s'.early && s.risky <= s'.risky
    && |s.sends| <= |s'.sends|
    && (forall i | 0 <= i < |s.sends| :: s'.sends[i] == s.sends[i])
    && (forall i | |s.sends| <= i < |s'.sends| ::
        s'.sends[i].call in s.marks && s.marks[s'.sends[i].call].sender == actor)
    && s.reports <= s'.reports
    && (forall f | f in s'.reports && f !in s.reports && f.report.sequence > 0 ::
        f.call in s.exits && s.exits[f.call].mover == actor)
  }

  /** The guarantee of a step of `actor` to every other thread. */
  ghost predicate Evolves(s: State, s': State, actor: Tid) {
    && s'.opts == s.opts && s.now <= s'.now && s.nextTid <= s'.nextTid
    && CallsEvolve(s, s') && GrantsEvolve(s.db, s'.db) && MarksEvolve(s, s', actor) && HistoryEvolves(s, s', actor)
  }

  /** What another thread knows survives the step. */
  lemma ThreadStable(s: State, s': State, actor: Tid, t: Tid, pc: Pc)
    requires Evolves(s, s', actor) && ThreadOk(s, t, pc) && t != actor
    ensures ThreadOk(s', t, pc)
  {
    if pc.Sending? {
      assert !WasSent(s', pc.call);
    } else if pc.Concluding? {
      var i :| 0 <= i < |s.sends| && s.sends[i].call == pc.call && s.sends[i].sender == t
               && Means(s.sends[i].reply, pc.state, pc.code);
      assert s'.sends[i] == s.sends[i];
    } else if pc.Finalizing? && pc.noneOpen {
      forall c | c in s'.db.calls && s'.db.calls[c].grant == pc.grant && s'.db.calls[c].grantRevision == pc.revision
        ensures !s'.db.calls[c].Open()
      {
        assert c in s.db.calls;
        assert Advances(s.db.calls[c], s'.db.calls[c]) && !s.db.calls[c].Open();
      }
    }
  }

  /** A call whose row and history entries a step leaves alone. */
  lemma CallStable(s: State, s': State, actor: Tid, c: Id)
    requires Evolves(s, s', actor) && c in s.db.calls && CallOk(s, c)
    requires s'.db.calls[c] == s.db.calls[c]
    requires c in s'.marks <==> c in s.marks
    requires c in s'.exits <==> c in s.exits
    requires s'.db.grants[s.db.calls[c].grant].state == Revoked ==>
          s.db.grants[s.db.calls[c].grant].state == Revoked || s.db.calls[c].Terminal()
    ensures CallOk(s', c)
  {
    if s.db.calls[c].usage == Some(1) {
      var i :| 0 <= i < |s.sends| && s.sends[i].call == c;
      assert s'.sends[i].call == c;
    }
  }
}
