/** A descriptor revision: what discovery read from the live server bound to what the listing
    declared, and the digest over both. A digest is its pre-image. */
module Catalog {
  import opened Basics
  import opened Sorting

  datatype Error = Forbidden | Invalid | Mismatch

  // ---------------------------------------------------------------- text sets

  predicate Space(c: char) {
    c == ' ' || '\t' <= c <= '\r'
  }

  function TrimLeft(s: string): string {
    if s != "" && Space(s[0]) then TrimLeft(s[1..]) else s
  }

  function TrimRight(s: string): string {
    if s != "" && Space(s[|s| - 1]) then TrimRight(s[..|s| - 1]) else s
  }

  function LowerChar(c: char): char {
    if 'A' <= c <= 'Z' then (c as int + 32) as char else c
  }

  function Lower(s: string): string {
    seq(|s|, i requires 0 <= i < |s| => LowerChar(s[i]))
  }

  /** strings.ToLower of strings.TrimSpace. */
  function Fold(s: string): string {
    Lower(TrimRight(TrimLeft(s)))
  }

  predicate Trimmed(s: string) {
    s != "" ==> !Space(s[0]) && !Space(s[|s| - 1])
  }

  lemma {:induction false} TrimLeftTrims(s: string)
    ensures TrimLeft(s) != "" ==> !Space(TrimLeft(s)[0])
  {
    if s != "" && Space(s[0]) { TrimLeftTrims(s[1..]); }
  }

  lemma {:induction false} TrimRightTrims(s: string)
    requires s != "" ==> !Space(s[0])
    ensures Trimmed(TrimRight(s))
  {
    if s != "" && Space(s[|s| - 1]) { TrimRightTrims(s[..|s| - 1]); }
  }

  lemma FoldIsIdempotent(s: string)
    ensures Fold(Fold(s)) == Fold(s)
  {
    var t := TrimRight(TrimLeft(s));
    TrimLeftTrims(s);
    TrimRightTrims(TrimLeft(s));
    assert Trimmed(Lower(t));
    assert Lower(Lower(t)) == Lower(t);
  }

  /** The folded texts that are not empty. */
  function Kept(xs: seq<string>): seq<string> {
    if xs == [] then []
    else
      var init, last := Kept(xs[..|xs| - 1]), Fold(xs[|xs| - 1]);
      if last != "" then init + [last] else init
  }

  function Normalize(xs: seq<string>): seq<string> {
    Compact(SortBy(Kept(xs), Itself))
  }

  /** The set a list of texts stands for. */
  ghost predicate Stands(xs: seq<string>, x: string) {
    x != "" && exists y :: y in xs && Fold(y) == x
  }

  /** normalizeSet. */
  method NormalizeSet(xs: seq<string>) returns (out: seq<string>)
    ensures out == Normalize(xs)
    ensures StrictBy(out, Itself) && forall x :: x in out <==> Stands(xs, x)
  {
    out := [];
    for i := 0 to |xs|
      invariant out == Kept(xs[..i])
    {
      assert xs[..i + 1][..i] == xs[..i];
      var x := Fold(xs[i]);
      if x != "" { out := out + [x]; }
    }
    assert xs[..|xs|] == xs;
    out := Compact(SortBy(out, Itself));
    NormalizeIs(xs);
  }

  lemma {:induction false} KeptIs(xs: seq<string>)
    ensures forall x :: x in Kept(xs) <==> Stands(xs, x)
  {
    if xs != [] {
      var init, last := xs[..|xs| - 1], xs[|xs| - 1];
      KeptIs(init);
      assert xs == init + [last];
      forall x ensures x in Kept(xs) <==> Stands(xs, x) {
        if Stands(xs, x) && Fold(last) != x {
          var y :| y in xs && Fold(y) == x;
          assert y in init;
        }
      }
    }
  }

  /** A normalized list is strictly increasing and holds the folded texts, none of them empty. */
  lemma NormalizeIs(xs: seq<string>)
    ensures StrictBy(Normalize(xs), Itself) && forall x :: x in Normalize(xs) <==> Stands(xs, x)
  {
    hide Stands, Kept, SortBy, Compact;
    KeptIs(xs);
    SortByIsSorting(Kept(xs), Itself);
    SortMembers(Kept(xs), Itself);
    CompactIsStrict(SortBy(Kept(xs), Itself));
    var n := Normalize(xs);
    assert n == Compact(SortBy(Kept(xs), Itself));
  }

  lemma StandsFolded(xs: seq<string>, x: string)
    requires Stands(xs, x)
    ensures Fold(x) == x && x != ""
  {
    var y :| y in xs && Fold(y) == x;
    FoldIsIdempotent(y);
  }

  /** Normalizing again changes nothing. */
  lemma NormalizeIsIdempotent(xs: seq<string>)
    ensures Normalize(Normalize(xs)) == Normalize(xs)
  {
    hide Normalize;
    NormalizeAlike(Normalize(xs), xs, None);
  }

  /** Lists that stand for the same set, the first with one more text, normalize alike. */
  lemma NormalizeAlike(n: seq<string>, xs: seq<string>, more: Option<string>)
    requires n == Normalize(xs) && (more.Some? ==> Fold(more.value) == "" || Fold(more.value) in n)
    ensures Normalize(n + if more.Some? then [more.value] else []) == n
    ensures Normalize(n) == n
  {
    hide Normalize, Fold;
    NormalizeIs(xs);
    forall extra: seq<string> | forall y | y in extra :: Fold(y) == "" || Fold(y) in n
      ensures Normalize(n + extra) == n
    {
      NormalizeIs(n + extra);
      forall x ensures Stands(n + extra, x) <==> x in n {
        if x in n { StandsFolded(xs, x); assert x in n + extra; }
        if Stands(n + extra, x) {
          var y :| y in n + extra && Fold(y) == x;
          if y in n { StandsFolded(xs, y); }
        }
      }
      StrictAlike(Normalize(n + extra), n, Itself);
    }
    assert n + [] == n;
  }

  // ---------------------------------------------------------------- what is declared and what is live

  datatype Scheme = Https | Http | OtherScheme

  /** The canonical resource with its parsed parts. */
  datatype Resource = Resource(text: string, parses: bool, absolute: bool, host: string, hostname: string, rooted: bool,
                               userinfo: bool, query: string, fragment: string, scheme: Scheme)

  function CheckResource(u: Resource, allowHttp: bool): Result<string, Error> {
    if !u.parses || !u.absolute || u.host == "" || !u.rooted then Err(Invalid)
    else if u.userinfo || u.fragment != "" || u.query != "" then Err(Invalid)
    else
      match u.scheme
      case Https => Ok(Lower(u.hostname))
      case Http => if allowHttp then Ok(Lower(u.hostname)) else Err(Forbidden)
      case OtherScheme => Err(Invalid)
  }

  datatype Transport = StreamableHttp | OtherTransport(text: string)

  datatype DataClass = Public | Internal | Confidential | Restricted | OtherClass(text: string)

  datatype Money = Money(currency: string, amount: int)

  /** What the listing says of a method beyond its schemas. */
  datatype Terms = Terms(sideEffecting: bool, price: Money, idempotent: bool, queryable: bool)

  datatype ToolDeclaration = ToolDeclaration(name: string, input: Option<string>, output: Option<string>, terms: Terms)

  datatype Declaration = Declaration(
    resource: Resource, transport: Transport, protocol: string, provenance: string, expected: Option<Covered>,
    tools: seq<ToolDeclaration>, dataClass: DataClass, networkScope: seq<string>, licenses: seq<string>)

  datatype Schema = NoSchema | NotJson(raw: string) | Document(raw: string, canonical: string)

  datatype Hints = Hints(title: Option<string>, readOnly: Option<bool>, destructive: Option<bool>,
                         idempotent: Option<bool>, openWorld: Option<bool>)

  datatype Annotations = NoAnnotations | NotAnObject | Annotated(hints: Hints)

  datatype LiveTool = LiveTool(name: string, input: Schema, output: Schema, annotations: Annotations)

  datatype Named = Named(name: string, uri: string)

  datatype Live = Live(
    name: string, version: string, protocol: string, tools: seq<LiveTool>, resources: seq<Named>, prompts: seq<Named>,
    evidence: string, connection: string, issuer: string)

  // ---------------------------------------------------------------- digests

  /** An absent document digests as null. */
  function SchemaDigest(s: Schema): Result<string, Error> {
    match s
    case NoSchema => Ok("null")
    case NotJson(_) => Err(Invalid)
    case Document(_, canonical) => Ok(canonical)
  }

  datatype Behaviour = Behaviour(title: string, readOnly: bool, destructive: bool, idempotent: bool, openWorld: bool)

  function Or<T>(o: Option<T>, default: T): T {
    if o.Some? then o.value else default
  }

  /** Annotations by their meaning, the defaults made explicit. */
  function AnnotationsDigest(a: Annotations): Result<Behaviour, Error> {
    match a
    case NotAnObject => Err(Invalid)
    case NoAnnotations => Ok(Behaviour("", false, true, false, true))
    case Annotated(h) => Ok(Behaviour(Or(h.title, ""), Or(h.readOnly, false), Or(h.destructive, true),
                                      Or(h.idempotent, false), Or(h.openWorld, true)))
  }

  function WithDefaults(a: Annotations): Hints
    requires !a.NotAnObject?
  {
    var h := if a.NoAnnotations? then Hints(None, None, None, None, None) else a.hints;
    Hints(Some(Or(h.title, "")), Some(Or(h.readOnly, false)), Some(Or(h.destructive, true)),
          Some(Or(h.idempotent, false)), Some(Or(h.openWorld, true)))
  }

  /** Annotations digest alike exactly when they say the same once the defaults are written out; an absent list is all
      defaults. */
  lemma AnnotationsByMeaning(a: Annotations, b: Annotations)
    requires !a.NotAnObject? && !b.NotAnObject?
    ensures AnnotationsDigest(a) == AnnotationsDigest(b) <==> WithDefaults(a) == WithDefaults(b)
    ensures AnnotationsDigest(a) == AnnotationsDigest(Annotated(WithDefaults(a)))
  {
  }

  /** What is digested of a live method. */
  datatype Meaning = Meaning(name: string, input: string, output: string, annotations: Behaviour)

  function MeaningOf(t: LiveTool): Result<Meaning, Error> {
    if SchemaDigest(t.input).Ok? && SchemaDigest(t.output).Ok? && AnnotationsDigest(t.annotations).Ok?
    then Ok(Meaning(t.name, SchemaDigest(t.input).value, SchemaDigest(t.output).value,
                    AnnotationsDigest(t.annotations).value))
    else Err(Invalid)
  }

  /** One method of a revision. */
  datatype Tool = Tool(meaning: Meaning, terms: Terms)

  function ToolName(t: Tool): string {
    t.meaning.name
  }

  function LiveName(t: LiveTool): string {
    t.name
  }

  function DeclaredName(d: ToolDeclaration): string {
    d.name
  }

  function NamedKey(n: Named): string {
    n.name + "\0" + n.uri
  }

  /** Everything a reviewer approves. */
  datatype Covered = Covered(
    resource: string, transport: Transport, protocol: string, serverName: string, serverVersion: string,
    tools: seq<Tool>,
    resources: seq<Named>, prompts: seq<Named>, dataClass: DataClass, networkScope: seq<string>, licenses: seq<string>,
    issuer: string)

  datatype Descriptor = Descriptor(
    resource: Resource, transport: Transport, protocol: string, provenance: string, tools: seq<Tool>,
    resources: seq<Named>, prompts: seq<Named>,
    serverName: string, serverVersion: string, dataClass: DataClass, networkScope: seq<string>, licenses: seq<string>,
    schemas: map<string, string>, issuer: string, evidence: string, connection: string, digest: Covered)

  function DigestOf(d: Declaration, live: Live, tools: seq<Tool>, resources: seq<Named>, prompts: seq<Named>,
                    scope: seq<string>, licenses: seq<string>): Covered {
    Covered(d.resource.text, d.transport, d.protocol, live.name, live.version, tools, resources, prompts, d.dataClass,
            scope, licenses, live.issuer)
  }

  // ---------------------------------------------------------------- building

  /** The declared methods by name, or the refusal of one of them. */
  function DeclareAll(ds: seq<ToolDeclaration>, declared: map<string, ToolDeclaration>)
    : Result<map<string, ToolDeclaration>, Error>
  {
    if ds == [] then Ok(declared)
    else if ds[0].name in declared || ds[0].name == "" || ds[0].terms.price.amount < 0
        || |ds[0].terms.price.currency| != 3 then Err(Invalid)
    else DeclareAll(ds[1..], declared[ds[0].name := ds[0]])
  }

  datatype Binding = Binding(tools: seq<Tool>, schemas: map<string, string>, left: map<string, ToolDeclaration>)

  predicate Meets(d: ToolDeclaration, m: Meaning) {
    (d.input.Some? ==> d.input.value == m.input) && (d.output.Some? ==> d.output.value == m.output)
  }

  function WithSchema(schemas: map<string, string>, t: LiveTool): map<string, string> {
    if t.input.NoSchema? then schemas else schemas[t.name := t.input.raw]
  }

  /** The live methods bound one after the other, each to a declaration not yet used. */
  function BindAll(ts: seq<LiveTool>, b: Binding): Result<Binding, Error> {
    if ts == [] then Ok(b)
    else if ts[0].name !in b.left then Err(Mismatch)
    else
      match MeaningOf(ts[0])
      case Err(e) => Err(e)
      case Ok(m) =>
        if !Meets(b.left[m.name], m) then Err(Mismatch)
        else BindAll(ts[1..], Binding(b.tools + [Tool(m, b.left[m.name].terms)], WithSchema(b.schemas, ts[0]),
                                      b.left - {m.name}))
  }

  function NetworkScope(declared: seq<string>, host: string): seq<string> {
    var scope := Normalize(declared);
    if host in scope then scope else Normalize(scope + [host])
  }

  lemma StandsWithOneMore(xs: seq<string>, h: string, x: string)
    ensures Stands(xs + [h], x) <==> Stands(xs, x) || (x != "" && x == Fold(h))
  {
    if Stands(xs, x) {
      var y :| y in xs && Fold(y) == x;
      assert y in xs + [h];
    }
    assert h in xs + [h];
  }

  /** A network scope is the declared one with the resource's own host, whether or not it was declared. */
  lemma ScopeHasTheHost(declared: seq<string>, host: string)
    ensures StrictBy(NetworkScope(declared, host), Itself)
    ensures forall x :: x in NetworkScope(declared, host) <==> Stands(declared + [host], x)
  {
    hide Normalize, Fold, Stands;
    var n := Normalize(declared);
    NormalizeIs(declared);
    NormalizeIs(n + [host]);
    forall x ensures x in NetworkScope(declared, host) <==> Stands(declared + [host], x) {
      StandsWithOneMore(declared, host, x);
      if host in n {
        StandsFolded(declared, host);
      } else {
        StandsWithOneMore(n, host, x);
        StandsNormalized(declared, x);
      }
    }
  }

  lemma StandsNormalized(xs: seq<string>, x: string)
    ensures Stands(Normalize(xs), x) <==> Stands(xs, x)
  {
    hide Normalize, Fold;
    var n := Normalize(xs);
    NormalizeIs(xs);
    if Stands(n, x) {
      var y :| y in n && Fold(y) == x;
      StandsFolded(xs, y);
    }
    if Stands(xs, x) { StandsFolded(xs, x); }
  }

  /** The descriptor of a declaration and a live read whose named lists sorted as given. */
  function Build(d: Declaration, live: Live, resources: seq<Named>, prompts: seq<Named>): Result<Descriptor, Error> {
    if d.transport != StreamableHttp then Err(Forbidden)
    else if d.dataClass.OtherClass? then Err(Invalid)
    else
      match CheckResource(d.resource, true)
      case Err(e) => Err(e)
      case Ok(host) =>
        if live.protocol != d.protocol then Err(Mismatch)
        else
          match DeclareAll(d.tools, map[])
          case Err(e) => Err(e)
          case Ok(declared) =>
            match BindAll(live.tools, Binding([], map[], declared))
            case Err(e) => Err(e)
            case Ok(b) =>
              if b.left != map[] then Err(Mismatch)
              else Assemble(d, live, resources, prompts, b, host)
  }

  function Assemble(d: Declaration, live: Live, resources: seq<Named>, prompts: seq<Named>, b: Binding,
                    host: string): Result<Descriptor, Error> {
    var tools, scope, licenses := SortBy(b.tools, ToolName), NetworkScope(d.networkScope, host), Normalize(d.licenses);
    var digest := DigestOf(d, live, tools, resources, prompts, scope, licenses);
    if d.expected.Some? && d.expected.value != digest then Err(Mismatch)
    else Ok(Descriptor(d.resource, d.transport, d.protocol, d.provenance, tools, resources, prompts, live.name,
                       live.version, d.dataClass,
                       scope, licenses, b.schemas, live.issuer, live.evidence, live.connection, digest))
  }

  /** sortNamed: the list in the order of its keys; which of the possible orders is not promised. */
  method SortNamed(xs: seq<Named>) returns (out: seq<Named>)
    ensures IsSorting(xs, out, NamedKey)
  {
    out := SortBy(xs, NamedKey);
    SortByIsSorting(xs, NamedKey);
  }

  /** BuildDescriptor. */
  method BuildDescriptor(d: Declaration, live: Live) returns (r: Result<Descriptor, Error>)
    ensures exists rs, ps ::
        IsSorting(live.resources, rs, NamedKey) && IsSorting(live.prompts, ps, NamedKey) && r == Build(d, live, rs, ps)
  {
    hide Build, IsSorting;
    var rs := SortNamed(live.resources);
    var ps := SortNamed(live.prompts);
    r := BuildSorted(d, live, rs, ps);
  }

  /** The build, its named lists sorted. */
  method BuildSorted(d: Declaration, live: Live, rs: seq<Named>, ps: seq<Named>) returns (r: Result<Descriptor, Error>)
    ensures r == Build(d, live, rs, ps)
  {
    if d.transport != StreamableHttp { return Err(Forbidden); }
    if d.dataClass.OtherClass? { return Err(Invalid); }
    var checked := CheckResource(d.resource, true);
    if checked.Err? { return Err(checked.error); }
    var host := checked.value;
    var scope := NormalizeSet(d.networkScope);
    if host !in scope { scope := NormalizeSet(scope + [host]); }
    if live.protocol != d.protocol { return Err(Mismatch); }
    var declared := DeclareTools(d.tools);
    if declared.Err? { return Err(declared.error); }
    var bound := BindTools(live.tools, declared.value);
    if bound.Err? { return Err(bound.error); }
    var b := bound.value;
    if b.left != map[] { return Err(Mismatch); }
    var tools := SortBy(b.tools, ToolName);
    var licenses := NormalizeSet(d.licenses);
    var digest := DigestOf(d, live, tools, rs, ps, scope, licenses);
    if d.expected.Some? && d.expected.value != digest { return Err(Mismatch); }
    r := Ok(Descriptor(d.resource, d.transport, d.protocol, d.provenance, tools, rs, ps, live.name, live.version,
                       d.dataClass,
                       scope, licenses, b.schemas, live.issuer, live.evidence, live.connection, digest));
  }

  /** The loop that fills the declared map. */
  method DeclareTools(ds: seq<ToolDeclaration>) returns (r: Result<map<string, ToolDeclaration>, Error>)
    ensures r == DeclareAll(ds, map[])
  {
    var declared: map<string, ToolDeclaration> := map[];
    for i := 0 to |ds|
      invariant DeclareAll(ds, map[]) == DeclareAll(ds[i..], declared)
    {
      var t := ds[i];
      assert ds[i..][1..] == ds[i + 1..];
      if t.name in declared || t.name == "" { return Err(Invalid); }
      if t.terms.price.amount < 0 || |t.terms.price.currency| != 3 { return Err(Invalid); }
      declared := declared[t.name := t];
    }
    r := Ok(declared);
  }

  /** The loop that binds each live method and deletes its declaration. */
  method BindTools(ts: seq<LiveTool>, all: map<string, ToolDeclaration>) returns (r: Result<Binding, Error>)
    ensures r == BindAll(ts, Binding([], map[], all))
  {
    var declared, tools, schemas: map<string, string> := all, [], map[];
    for i := 0 to |ts|
      invariant BindAll(ts, Binding([], map[], all)) == BindAll(ts[i..], Binding(tools, schemas, declared))
    {
      var t := ts[i];
      assert ts[i..][1..] == ts[i + 1..];
      if t.name !in declared { return Err(Mismatch); }
      var decl := declared[t.name];
      declared := declared - {t.name};
      var m := MeaningOf(t);
      if m.Err? { return Err(m.error); }
      if !Meets(decl, m.value) { return Err(Mismatch); }
      schemas := WithSchema(schemas, t);
      tools := tools + [Tool(m.value, decl.terms)];
    }
    r := Ok(Binding(tools, schemas, declared));
  }

  // ---------------------------------------------------------------- when a build succeeds

  predicate DeclarationOk(d: ToolDeclaration) {
    d.name != "" && d.terms.price.amount >= 0 && |d.terms.price.currency| == 3
  }

  lemma DistinctCons(d: ToolDeclaration, rest: seq<ToolDeclaration>)
    ensures DistinctBy([d] + rest, DeclaredName) <==> DistinctBy(rest, DeclaredName) && forall x | x in rest ::
        x.name != d.name
  {
    var ds := [d] + rest;
    if DistinctBy(ds, DeclaredName) {
      forall x | x in rest ensures x.name != d.name {
        var i :| 0 <= i < |rest| && rest[i] == x;
        assert DeclaredName(ds[0]) != DeclaredName(ds[i + 1]);
      }
      forall i, j | 0 <= i < j < |rest| ensures DeclaredName(rest[i]) != DeclaredName(rest[j]) {
        assert rest[i] == ds[i + 1] && rest[j] == ds[j + 1];
      }
    }
  }

  /** The declarations are accepted exactly when names are present and distinct and prices well-formed; then each is
      found by its name. */
  lemma {:induction false} DeclaredIs(ds: seq<ToolDeclaration>, declared: map<string, ToolDeclaration>)
    ensures var r := DeclareAll(ds, declared);
      && (r.Ok? <==> DistinctBy(ds, DeclaredName) && forall d | d in ds :: DeclarationOk(d) && d.name !in declared)
      && (r.Ok? ==> forall d | d in ds :: d.name in r.value && r.value[d.name] == d)
      && (r.Ok? ==> forall n :: n in r.value <==> n in declared || exists d :: d in ds && d.name == n)
      && (r.Ok? ==> forall n | n in declared :: n in r.value && r.value[n] == declared[n])
  {
    if ds != [] {
      var d, rest := ds[0], ds[1..];
      assert ds == [d] + rest;
      assert forall x :: x in ds <==> x == d || x in rest;
      if d.name !in declared && DeclarationOk(d) {
        DeclaredIs(rest, declared[d.name := d]);
        DistinctCons(d, rest);
      }
    }
  }

  /** The live method finds its declaration and meets it. */
  predicate Fits(t: LiveTool, declared: map<string, ToolDeclaration>) {
    t.name in declared && MeaningOf(t).Ok? && Meets(declared[t.name], MeaningOf(t).value)
  }

  predicate AllFit(ts: seq<LiveTool>, declared: map<string, ToolDeclaration>) {
    DistinctBy(ts, LiveName) && forall t | t in ts :: Fits(t, declared)
  }

  function BoundTool(t: LiveTool, declared: map<string, ToolDeclaration>): Tool
    requires Fits(t, declared)
  {
    Tool(MeaningOf(t).value, declared[t.name].terms)
  }

  function Bound(ts: seq<LiveTool>, declared: map<string, ToolDeclaration>): seq<Tool>
    requires forall t | t in ts :: Fits(t, declared)
  {
    seq(|ts|, i requires 0 <= i < |ts| => assert ts[i] in ts; BoundTool(ts[i], declared))
  }

  function LiveNames(ts: seq<LiveTool>): set<string> {
    set t | t in ts :: t.name
  }

  lemma AllFitCons(t: LiveTool, rest: seq<LiveTool>, declared: map<string, ToolDeclaration>)
    ensures AllFit([t] + rest, declared) <==> Fits(t, declared) && AllFit(rest, declared - {t.name})
  {
    var ts := [t] + rest;
    assert forall x :: x in ts <==> x == t || x in rest;
    assert DistinctBy(ts, LiveName) <==> DistinctBy(rest, LiveName) && forall x | x in rest :: x.name != t.name by {
      if DistinctBy(ts, LiveName) {
        forall x | x in rest ensures x.name != t.name {
          var i :| 0 <= i < |rest| && rest[i] == x;
          assert ts[0] == t && ts[i + 1] == x;
          assert LiveName(ts[0]) != LiveName(ts[i + 1]);
        }
        forall i, j | 0 <= i < j < |rest| ensures LiveName(rest[i]) != LiveName(rest[j]) {
          assert rest[i] == ts[i + 1] && rest[j] == ts[j + 1];
        }
      }
    }
  }

  lemma BoundCons(t: LiveTool, rest: seq<LiveTool>, declared: map<string, ToolDeclaration>)
    requires AllFit([t] + rest, declared) && AllFit(rest, declared - {t.name})
    ensures Bound([t] + rest, declared) == [BoundTool(t, declared)] + Bound(rest, declared - {t.name})
    ensures LiveNames([t] + rest) == {t.name} + LiveNames(rest)
  {
    var ts, less := [t] + rest, declared - {t.name};
    forall i | 0 <= i < |rest| ensures Bound(ts, declared)[i + 1] == Bound(rest, less)[i] {
      assert ts[i + 1] == rest[i] && rest[i] in rest;
    }
    assert Bound(ts, declared)[0] == BoundTool(t, declared);
    assert forall x :: x in ts <==> x == t || x in rest;
  }

  /** The live methods bind exactly when their names are distinct and each meets its declaration; what is left is what
      no live method names. */
  lemma {:induction false} BoundIs(ts: seq<LiveTool>, b: Binding)
    ensures var r := BindAll(ts, b);
      && (r.Ok? <==> AllFit(ts, b.left))
      && (r.Ok? ==> r.value.tools == b.tools + Bound(ts, b.left) && r.value.left == b.left - LiveNames(ts))
  {
    if ts == [] {
      assert b.left - {} == b.left;
    } else {
      var t, rest := ts[0], ts[1..];
      assert ts == [t] + rest;
      AllFitCons(t, rest, b.left);
      if Fits(t, b.left) {
        var b' := Binding(b.tools + [BoundTool(t, b.left)], WithSchema(b.schemas, t), b.left - {t.name});
        BoundIs(rest, b');
        if AllFit(ts, b.left) {
          BoundCons(t, rest, b.left);
        }
      }
    }
  }

  /** The schemas kept are the live input schemas, each under the name of its method. */
  lemma {:induction false} SchemasAreLive(ts: seq<LiveTool>, b: Binding)
    requires BindAll(ts, b).Ok? && forall n | n in b.schemas :: n !in b.left
    ensures var kept := BindAll(ts, b).value.schemas;
      && (forall t | t in ts && !t.input.NoSchema? :: t.name in kept && kept[t.name] == t.input.raw)
      && (forall n | n in kept :: (n in b.schemas && kept[n] == b.schemas[n]) || exists t ::
          t in ts && t.name == n && !t.input.NoSchema?)
      && (forall n | n in b.schemas :: n in kept && kept[n] == b.schemas[n])
  {
    if ts != [] {
      var t, rest := ts[0], ts[1..];
      assert forall x :: x in ts <==> x == t || x in rest;
      var b' := Binding(b.tools + [BoundTool(t, b.left)], WithSchema(b.schemas, t), b.left - {t.name});
      SchemasAreLive(rest, b');
    }
  }
}
