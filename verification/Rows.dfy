/** The rows of the catalog, grant and tool-request tables, and the pure rules on
    one row. Identities are opaque (naturals); digests stand for their pre-images;
    instants are integers on one clock. */
module Rows {
  import opened Basics

  /** The failure codes the service itself records, and those it passes on. */
  datatype Code =
    | NoCode
    | GrantNotExecutable | SendNotAttempted | OutcomeUnknown | ToolFailed | WasNotSent | ResolvedAs(outcome: string)
    | RegistrationRefused | RegistrationUncertain | DescriptorDisabled
    | Reported(text: string)

  // ---------------------------------------------------------------- tool requests

  datatype CallState =
    | Accepted | Admitted | Sent | Succeeded | Failed | Denied | Unknown | Canceled

  /** One tracked tool request. The first line is frozen at the insert;
      `observations` counts the recorded observations, so it is the observation
      sequence relative to the column's default. */
  datatype Call = Call(
    tenant: Id, grant: Id, grantRevision: nat, server: Id, descriptorRevision: nat, descriptorDigest: Id,
    deadline: Time,
    state: CallState, dispatch: Option<Id>, code: Code,
    marker: Option<Time>, usage: Option<nat>,
    observedAt: Option<Time>, observations: nat, updatedAt: Time)
  {
    /** The MCP state can no longer change. */
    predicate Terminal() {
      state.Succeeded? || state.Failed? || state.Denied? || state.Canceled?
    }

    /** What CountOpenToolRequests counts. */
    predicate Open() {
      state.Accepted? || state.Admitted? || state.Sent? || state.Unknown?
    }

    /** The states an observer reports to Control. */
    predicate Reportable() {
      state.Succeeded? || state.Failed? || state.Canceled? || state.Unknown?
    }

    /** The states in which the send marker is set. */
    predicate Marked() {
      state.Sent? || state.Succeeded? || state.Failed? || state.Unknown?
    }
  }

  // ---------------------------------------------------------------- grants

  datatype GrantState = Pending | Active | Revoking | Revoked | Expired | RegistrationFailed

  datatype Subject = TenantSubject | ProjectSubject(project: Id) | ActorSubject(actor: Id) | RoleSubject(role: Id)

  /** Control's fence as MCP last recorded it. */
  datatype Fence = NoFence | Fenced | Converging | Converged

  datatype Grant = Grant(
    tenant: Id, revision: nat, subject: Subject, server: Id, descriptorRevision: nat, descriptorDigest: Id,
    methods: set<string>, expires: Option<Time>,
    state: GrantState, receipt: string, fence: Fence, revokedAt: Option<Time>, code: Code)
  {
    /** Only an ACTIVE, unexpired revision with Control's receipt admits new work. */
    predicate Executable(now: Time) {
      state == Active && receipt != "" && (expires.None? || now < expires.value)
    }

    /** The revocation of the grant has committed. */
    predicate Withdrawn() {
      state.Revoking? || state.Revoked?
    }

    /** The states ListGrantsOfDescriptor selects. */
    predicate Live() {
      state.Pending? || state.Active?
    }
  }

  datatype Scope = Scope(tenant: Id, project: Option<Id>, actor: Id, roles: set<Id>)

  predicate CallerMaySend(scope: Scope, g: Grant) {
    match g.subject
    case TenantSubject => true
    case ProjectSubject(p) => scope.project == Some(p)
    case ActorSubject(a) => scope.actor == a
    case RoleSubject(r) => r in scope.roles
  }

  // ---------------------------------------------------------------- descriptors

  datatype CatalogState = ReviewPending | Approved | Rejected | Disabled

  datatype DescriptorKey = DescriptorKey(server: Id, revision: nat)

  datatype DescriptorRow = DescriptorRow(digest: Id, methods: set<string>, discoveredBy: Id, state: CatalogState)

  datatype Server = Server(tenant: Id, currentRevision: nat)

  function KeyOfGrant(g: Grant): DescriptorKey {
    DescriptorKey(g.server, g.descriptorRevision)
  }

  function KeyOfCall(c: Call): DescriptorKey {
    DescriptorKey(c.server, c.descriptorRevision)
  }

  /** The tables one transaction reads and writes. */
  datatype Db = Db(
    calls: map<Id, Call>, grants: map<Id, Grant>,
    descriptors: map<DescriptorKey, DescriptorRow>, servers: map<Id, Server>)
}
