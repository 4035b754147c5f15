/** What a grant request must satisfy, and the grant it becomes. */
module GrantRules {
  import opened Basics
  import opened Sorting
  import Catalog
  import Encoding
  import Sql

  datatype Error = NotFound | DescriptorMismatch | Forbidden | Invalid

  datatype SubjectKind = Known(kind: Encoding.SubjectType) | OtherSubject(text: string)

  /** A descriptor revision as a request sees it. */
  datatype Offer = Offer(
    tenant: string, server: string, revision: nat, digest: string, approved: bool,
    methods: seq<string>, resources: seq<string>, prompts: seq<string>, dataClass: Catalog.DataClass,
    resource: string, transport: string, protocol: string, issuer: string)

  /** An absent data class takes the descriptor's. */
  datatype Request = Request(
    subject: SubjectKind, subjectId: string, server: string, revision: nat, digest: string,
    methods: seq<string>, resources: seq<string>, prompts: seq<string>, purpose: string,
    dataClass: Option<Catalog.DataClass>, currency: string, amount: int, expires: Option<Time>)

  datatype Grant = Grant(
    tenant: string, subject: Encoding.SubjectType, subjectId: string, offer: Offer,
    methods: seq<string>, resources: seq<string>, prompts: seq<string>, purpose: string,
    dataClass: Catalog.DataClass, currency: string, amount: int, expires: Option<Time>)

  function Rank(c: Catalog.DataClass): int {
    match c
    case Public => 0
    case Internal => 1
    case Confidential => 2
    case Restricted => 3
    case OtherClass(_) => -1
  }

  // ---------------------------------------------------------------- lists of names

  /** normalizeExact. */
  function Exact(xs: seq<string>): seq<string> {
    Compact(SortBy(xs, Itself))
  }

  lemma ExactIs(xs: seq<string>)
    ensures StrictBy(Exact(xs), Itself) && SameMembers(Exact(xs), xs)
  {
    hide SortBy, Compact;
    SortByIsSorting(xs, Itself);
    SortMembers(xs, Itself);
    CompactIsStrict(SortBy(xs, Itself));
  }

  function Names(xs: seq<string>): set<string> {
    set x | x in xs
  }

  lemma {:induction false} DistinctIsFull(xs: seq<string>)
    ensures |Names(xs)| <= |xs|
    ensures |Names(xs)| == |xs| <==> DistinctBy(xs, Itself)
  {
    if xs != [] {
      var init, last := xs[..|xs| - 1], xs[|xs| - 1];
      assert xs == init + [last];
      DistinctIsFull(init);
      assert Names(xs) == Names(init) + {last};
      if last in init {
        var i :| 0 <= i < |init| && init[i] == last;
        assert Itself(xs[i]) == Itself(xs[|xs| - 1]);
      } else {
        assert DistinctBy(xs, Itself) <==> DistinctBy(init, Itself);
      }
    }
  }

  /** A list keeps its length exactly when it repeats nothing. */
  lemma ExactLength(xs: seq<string>)
    ensures |Exact(xs)| == |xs| <==> DistinctBy(xs, Itself)
  {
    var e := Exact(xs);
    ExactIs(xs);
    hide Exact;
    assert Names(e) == Names(xs);
    assert DistinctBy(e, Itself) by {
      forall i, j | 0 <= i < j < |e| ensures Itself(e[i]) != Itself(e[j]) { LessIsStrict(e[i], e[j]); }
    }
    DistinctIsFull(e);
    DistinctIsFull(xs);
  }

  /** Every name of the first list is in the second. */
  predicate Covers(names: seq<string>, offered: seq<string>) {
    forall n | n in names :: n in offered
  }

  /** The checking loop over one list of names. */
  method AllOffered(names: seq<string>, offered: seq<string>) returns (ok: bool)
    ensures ok <==> Covers(names, offered)
  {
    for i := 0 to |names|
      invariant Covers(names[..i], offered)
    {
      if names[i] !in offered { return false; }
      assert names[..i + 1] == names[..i] + [names[i]];
    }
    assert names[..|names|] == names;
    ok := true;
  }

  // ---------------------------------------------------------------- NewGrant

  predicate SubjectFits(tenant: string, project: string, req: Request) {
    match req.subject
    case Known(TenantSubject) => req.subjectId == tenant
    case Known(ProjectSubject) => project != "" && req.subjectId == project
    case _ => true
  }

  function Draft(tenant: string, project: string, req: Request, d: Offer, now: Time): Result<Grant, Error> {
    var granted := if req.dataClass.Some? then req.dataClass.value else d.dataClass;
    if d.tenant != tenant || d.server != req.server || d.revision != req.revision then Err(NotFound)
    else if d.digest != req.digest then Err(DescriptorMismatch)
    else if !d.approved then Err(Forbidden)
    else if !SubjectFits(tenant, project, req) then Err(Forbidden)
    else if req.subject.OtherSubject? then Err(Invalid)
    else if |Exact(req.methods)| == 0 || |Exact(req.methods)| != |req.methods| then Err(Invalid)
    else if !Covers(Exact(req.methods), d.methods) then Err(Forbidden)
    else if !Covers(Exact(req.resources), d.resources) then Err(Forbidden)
    else if !Covers(Exact(req.prompts), d.prompts) then Err(Forbidden)
    else if Rank(granted) < 0 || Rank(granted) > Rank(d.dataClass) then Err(Forbidden)
    else if |req.currency| != 3 || req.amount < 0 then Err(Invalid)
    else if req.expires.Some? && now >= req.expires.value then Err(Invalid)
    else if Catalog.TrimRight(Catalog.TrimLeft(req.purpose)) == "" then Err(Invalid)
    else Ok(Grant(tenant, req.subject.kind, req.subjectId, d, Exact(req.methods), Exact(req.resources),
                  Exact(req.prompts), req.purpose,
                  granted, req.currency, req.amount, Sql.StoredExpiry(req.expires)))
  }

  method NewGrant(tenant: string, project: string, req: Request, d: Offer, now: Time) returns (r: Result<Grant, Error>)
    ensures r == Draft(tenant, project, req, d, now)
  {
    hide Exact;
    if d.tenant != tenant || d.server != req.server || d.revision != req.revision { return Err(NotFound); }
    if d.digest != req.digest { return Err(DescriptorMismatch); }
    if !d.approved { return Err(Forbidden); }
    match req.subject {
      case Known(kind) =>
        if kind == Encoding.TenantSubject && req.subjectId != tenant { return Err(Forbidden); }
        if kind == Encoding.ProjectSubject && (project == "" || req.subjectId != project) { return Err(Forbidden); }
      case OtherSubject(_) => return Err(Invalid);
    }
    var methods := Exact(req.methods);
    if |methods| == 0 || |methods| != |req.methods| { return Err(Invalid); }
    var ok := AllOffered(methods, d.methods);
    if !ok { return Err(Forbidden); }
    var resources, prompts := Exact(req.resources), Exact(req.prompts);
    ok := AllOffered(resources, d.resources);
    if !ok { return Err(Forbidden); }
    ok := AllOffered(prompts, d.prompts);
    if !ok { return Err(Forbidden); }
    var granted := if req.dataClass.Some? then req.dataClass.value else d.dataClass;
    if Rank(granted) < 0 || Rank(granted) > Rank(d.dataClass) { return Err(Forbidden); }
    if |req.currency| != 3 || req.amount < 0 { return Err(Invalid); }
    if req.expires.Some? && now >= req.expires.value { return Err(Invalid); }
    if Catalog.TrimRight(Catalog.TrimLeft(req.purpose)) == "" { return Err(Invalid); }
    r := Ok(Grant(tenant, req.subject.kind, req.subjectId, d, methods, resources, prompts, req.purpose, granted,
                  req.currency, req.amount,
                  Sql.StoredExpiry(req.expires)));
  }

  // ---------------------------------------------------------------- what is granted

  /** The request asks for this approved revision, for a subject of the caller, and for no more than the revision
      offers. */
  predicate Admissible(tenant: string, project: string, req: Request, d: Offer, now: Time) {
    && d.tenant == tenant && d.server == req.server && d.revision == req.revision && d.digest == req.digest
        && d.approved
    && req.subject.Known? && SubjectFits(tenant, project, req)
    && req.methods != [] && DistinctBy(req.methods, Itself)
    && Covers(req.methods, d.methods) && Covers(req.resources, d.resources) && Covers(req.prompts, d.prompts)
    && !d.dataClass.OtherClass? && (req.dataClass.Some? ==> 0 <= Rank(req.dataClass.value) <= Rank(d.dataClass))
    && |req.currency| == 3 && req.amount >= 0
    && (req.expires.Some? ==> now < req.expires.value)
    && exists c :: c in req.purpose && !Catalog.Space(c)
  }

  lemma {:induction false} BlankIsTrimmed(s: string)
    ensures Catalog.TrimRight(Catalog.TrimLeft(s)) == "" <==> forall c | c in s :: Catalog.Space(c)
  {
    TrimLeftBlank(s);
    TrimRightBlank(Catalog.TrimLeft(s));
  }

  lemma {:induction false} TrimLeftBlank(s: string)
    ensures (forall c | c in Catalog.TrimLeft(s) :: Catalog.Space(c)) <==> forall c | c in s :: Catalog.Space(c)
  {
    if s != "" && Catalog.Space(s[0]) {
      TrimLeftBlank(s[1..]);
      assert forall c :: c in s <==> c == s[0] || c in s[1..];
    }
  }

  lemma {:induction false} TrimRightBlank(s: string)
    ensures Catalog.TrimRight(s) == "" <==> forall c | c in s :: Catalog.Space(c)
  {
    if s != "" {
      var init, last := s[..|s| - 1], s[|s| - 1];
      assert forall c :: c in s <==> c == last || c in init;
      if Catalog.Space(last) { TrimRightBlank(init); } else { assert last in s; }
    }
  }

  lemma ExactCovers(xs: seq<string>, offered: seq<string>)
    ensures Covers(Exact(xs), offered) <==> Covers(xs, offered)
  {
    ExactIs(xs);
    hide Exact;
  }

  /** A grant is made exactly for an admissible request. It holds the requested names sorted and without repeats, and
      no higher class than the descriptor's; its currency has the length its keys are read back by. */
  lemma GrantedExactly(tenant: string, project: string, req: Request, d: Offer, now: Time)
    ensures var r := Draft(tenant, project, req, d, now);
      && (r.Ok? <==> Admissible(tenant, project, req, d, now))
      && (r.Ok? ==> StrictBy(r.value.methods, Itself) && |r.value.methods| == |req.methods|)
      && (r.Ok? ==> SameMembers(r.value.methods, req.methods))
      && (r.Ok? ==> SameMembers(r.value.resources, req.resources) && SameMembers(r.value.prompts, req.prompts))
      && (r.Ok? ==> 0 <= Rank(r.value.dataClass) <= Rank(d.dataClass) && |r.value.currency| == 3)
  {
    ExactIs(req.methods);
    ExactIs(req.resources);
    ExactIs(req.prompts);
    ExactLength(req.methods);
    ExactCovers(req.methods, d.methods);
    ExactCovers(req.resources, d.resources);
    ExactCovers(req.prompts, d.prompts);
    BlankIsTrimmed(req.purpose);
    hide Exact, StrictBy, DistinctBy, Covers, Catalog.TrimLeft, Catalog.TrimRight;
  }

  /** What the grant holds of the request and of the revision. */
  lemma GrantedFields(tenant: string, project: string, req: Request, d: Offer, now: Time)
    requires Draft(tenant, project, req, d, now).Ok?
    ensures var g := Draft(tenant, project, req, d, now).value;
      && g.tenant == tenant && req.subject == Known(g.subject) && g.subjectId == req.subjectId && g.offer == d
      && g.purpose == req.purpose && g.currency == req.currency && g.amount == req.amount
      && (req.dataClass.Some? ==> g.dataClass == req.dataClass.value)
          && (req.dataClass.None? ==> g.dataClass == d.dataClass)
      && (g.expires.Some? <==> req.expires.Some?)
      && (g.expires.Some? ==> g.expires.value % 1000 == 0 && 0 <= req.expires.value - g.expires.value < 1000)
  {
    hide Exact, Covers;
  }

  /** The first check that fails decides the refusal. */
  lemma RefusedFor(tenant: string, project: string, req: Request, d: Offer, now: Time)
    ensures var r := Draft(tenant, project, req, d, now);
      if d.tenant != tenant || d.server != req.server || d.revision != req.revision then r == Err(NotFound)
      else if d.digest != req.digest then r == Err(DescriptorMismatch)
      else if !d.approved then r == Err(Forbidden)
      else if req.subject == Known(Encoding.TenantSubject) && req.subjectId != tenant then r == Err(Forbidden)
      else if req.subject == Known(Encoding.ProjectSubject)
          && (project == "" || req.subjectId != project) then r == Err(Forbidden)
      else if req.subject.OtherSubject? then r == Err(Invalid)
      else if req.methods == [] || !DistinctBy(req.methods, Itself) then r == Err(Invalid)
      else if exists m :: m in req.methods && m !in d.methods then r == Err(Forbidden)
      else if exists x :: x in req.resources && x !in d.resources then r == Err(Forbidden)
      else if exists x :: x in req.prompts && x !in d.prompts then r == Err(Forbidden)
      else if d.dataClass.OtherClass? then r == Err(Forbidden)
      else if req.dataClass.Some? && (req.dataClass.value.OtherClass? || Rank(req.dataClass.value) > Rank(d.dataClass))
      then r == Err(Forbidden)
      else if |req.currency| != 3 || req.amount < 0 then r == Err(Invalid)
      else if req.expires.Some? && req.expires.value <= now then r == Err(Invalid)
      else (forall c | c in req.purpose :: Catalog.Space(c)) ==> r == Err(Invalid)
  {
    ExactIs(req.methods);
    ExactLength(req.methods);
    ExactCovers(req.methods, d.methods);
    ExactCovers(req.resources, d.resources);
    ExactCovers(req.prompts, d.prompts);
    BlankIsTrimmed(req.purpose);
    if Exact(req.methods) == [] { assert req.methods == [] || req.methods[0] in Exact(req.methods); }
    hide Exact, DistinctBy, StrictBy, Catalog.TrimLeft, Catalog.TrimRight;
  }

  /** The classes are ordered public, internal, confidential, restricted. */
  lemma ClassOrder()
    ensures 0 <= Rank(Catalog.Public) < Rank(Catalog.Internal) < Rank(Catalog.Confidential) < Rank(Catalog.Restricted)
    ensures forall c: Catalog.DataClass | c.OtherClass? :: Rank(c) < 0
  {
  }

  /** The order of the names in a request does not matter. */
  lemma OrderDoesNotMatter(tenant: string, project: string, req: Request, again: Request, d: Offer, now: Time)
    requires again == req.(methods := again.methods, resources := again.resources, prompts := again.prompts)
    requires SameMembers(req.methods, again.methods) && |req.methods| == |again.methods|
    requires SameMembers(req.resources, again.resources) && SameMembers(req.prompts, again.prompts)
    ensures Draft(tenant, project, req, d, now) == Draft(tenant, project, again, d, now)
  {
    ExactAlike(req.methods, again.methods);
    ExactAlike(req.resources, again.resources);
    ExactAlike(req.prompts, again.prompts);
    hide Exact;
  }

  lemma ExactAlike(xs: seq<string>, ys: seq<string>)
    requires SameMembers(xs, ys)
    ensures Exact(xs) == Exact(ys)
  {
    ExactIs(xs);
    ExactIs(ys);
    hide Exact;
    StrictAlike(Exact(xs), Exact(ys), Itself);
  }

  // ---------------------------------------------------------------- the stored expiry

  lemma TruncatedHasPassed(expires: Time, now: Time)
    requires now < expires
    ensures Sql.Truncated(expires) <= now <==> now / 1000 == expires / 1000
    ensures Sql.Truncated(Sql.Truncated(expires)) == Sql.Truncated(expires)
  {
    assert expires == 1000 * (expires / 1000) + expires % 1000 && now == 1000 * (now / 1000) + now % 1000;
  }

  /** The expiry is checked before it is truncated to the microsecond: an admissible request becomes a grant whose
      stored expiry has already come exactly when its expiry lies in the microsecond of its creation. */
  lemma StoredExpiryHasPassed(tenant: string, project: string, req: Request, d: Offer, now: Time)
    requires Admissible(tenant, project, req, d, now) && req.expires.Some?
    ensures var r := Draft(tenant, project, req, d, now);
      && r.Ok? && r.value.expires.Some?
      && (r.value.expires.value <= now <==> now / 1000 == req.expires.value / 1000)
  {
    GrantedExactly(tenant, project, req, d, now);
    TruncatedHasPassed(req.expires.value, now);
    hide Exact, Admissible;
  }
}
