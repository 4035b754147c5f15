/** The checks of NewGrant and the creating transaction decide alike: with any numbering of identities, the
    transaction on the tables admits a request exactly when NewGrant does. */
module GrantTables {
  import opened Basics
  import opened Sorting
  import opened GrantRules
  import Catalog
  import Encoding
  import Rows
  import Sql

  /** Different texts have different numbers. */
  ghost predicate Numbering(n: string -> Id) {
    forall a, b :: n(a) == n(b) ==> a == b
  }

  function Number(s: string): Id {
    if s == "" then 0 else 1 + s[0] as int + 0x110000 * Number(s[1..])
  }

  lemma {:induction false} NumberSeparates(a: string, b: string)
    requires Number(a) == Number(b)
    ensures a == b
  {
    if a != "" && b != "" {
      NumberSeparates(a[1..], b[1..]);
      assert a == [a[0]] + a[1..] && b == [b[0]] + b[1..];
    }
  }

  /** There is one. */
  lemma NumberingExists()
    ensures Numbering(Number)
  {
    forall a, b | Number(a) == Number(b) ensures a == b { NumberSeparates(a, b); }
  }

  /** The tables hold the revision the request is checked against. */
  predicate Holds(n: string -> Id, db: Rows.Db, d: Offer) {
    var key := Rows.DescriptorKey(n(d.server), d.revision);
    && n(d.server) in db.servers && db.servers[n(d.server)].tenant == n(d.tenant)
    && key in db.descriptors && db.descriptors[key].digest == n(d.digest)
    && db.descriptors[key].methods == Names(d.methods)
    && (db.descriptors[key].state == Rows.Approved <==> d.approved)
  }

  function SubjectOf(n: string -> Id, req: Request): Rows.Subject {
    match req.subject
    case Known(ProjectSubject) => Rows.ProjectSubject(n(req.subjectId))
    case Known(ActorSubject) => Rows.ActorSubject(n(req.subjectId))
    case Known(RoleSubject) => Rows.RoleSubject(n(req.subjectId))
    case _ => Rows.TenantSubject
  }

  /** The checks of what no later step reads. */
  predicate TermsOk(tenant: string, req: Request, d: Offer) {
    && req.subject.Known? && (req.subject.kind == Encoding.TenantSubject ==> req.subjectId == tenant)
    && DistinctBy(req.methods, Itself) && Covers(req.resources, d.resources) && Covers(req.prompts, d.prompts)
    && !d.dataClass.OtherClass? && (req.dataClass.Some? ==> 0 <= Rank(req.dataClass.value) <= Rank(d.dataClass))
    && |req.currency| == 3 && req.amount >= 0 && exists c :: c in req.purpose && !Catalog.Space(c)
  }

  /** The request as the transaction sees it. */
  function Numbered(n: string -> Id, tenant: string, project: string, actor: Id, roles: set<Id>, req: Request, d: Offer)
    : Sql.GrantRequest
  {
    Sql.GrantRequest(Rows.Scope(n(tenant), if project == "" then None else Some(n(project)), actor, roles),
                     SubjectOf(n, req), Rows.DescriptorKey(n(req.server), req.revision), n(req.digest),
                     Names(req.methods), req.expires, TermsOk(tenant, req, d))
  }

  /** The two decide alike, and the row inserted is the grant NewGrant made: its methods, its stored expiry and the
      digest it is bound to. */
  lemma DecideAlike(n: string -> Id, db: Rows.Db, tenant: string, project: string, actor: Id, roles: set<Id>,
                    req: Request,
                    d: Offer, now: Time, id: Id)
    requires Numbering(n) && Holds(n, db, d) && d.server == req.server && d.revision == req.revision && id !in db.grants
    ensures var r := Draft(tenant, project, req, d, now);
      var asked := Numbered(n, tenant, project, actor, roles, req, d);
      var db' := Sql.CreateGrant(db, id, asked, now);
      && (r.Ok? <==> Sql.GrantAdmits(db, asked, now))
      && (id in db'.grants <==> r.Ok?)
      && (r.Ok? ==> db'.grants[id].methods == Names(r.value.methods) && db'.grants[id].expires == r.value.expires)
      && (r.Ok? ==> db'.grants[id].descriptorDigest == n(r.value.offer.digest))
      && (r.Ok? ==> db'.grants[id].tenant == n(r.value.tenant) && db'.grants[id].subject == SubjectOf(n, req))
  {
    var asked := Numbered(n, tenant, project, actor, roles, req, d);
    GrantedExactly(tenant, project, req, d, now);
    Sameness(n, d.tenant, tenant);
    Sameness(n, d.digest, req.digest);
    Sameness(n, project, req.subjectId);
    assert Names(req.methods) == {} <==> req.methods == [] by {
      if req.methods != [] { assert req.methods[0] in Names(req.methods); }
    }
    NamesCover(req.methods, d.methods);
    hide DistinctBy, Exact;
    assert Admissible(tenant, project, req, d, now) <==> Sql.GrantAdmits(db, asked, now);
  }

  lemma NamesCover(xs: seq<string>, ys: seq<string>)
    ensures Names(xs) <= Names(ys) <==> Covers(xs, ys)
  {
    if Names(xs) <= Names(ys) {
      forall x | x in xs ensures x in ys {
        assert x in Names(xs);
        assert x in Names(ys);
      }
    }
  }

  lemma Sameness(n: string -> Id, a: string, b: string)
    requires Numbering(n)
    ensures n(a) == n(b) <==> a == b
  {
  }
}
