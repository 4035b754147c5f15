/** The refresh of an approved revision: the live server is rebuilt against the reviewed
    declaration and the digests are compared. */
module Refresh {
  import opened Basics
  import opened Sorting
  import opened Catalog
  import Encoding

  function Redeclared(t: Tool): ToolDeclaration {
    ToolDeclaration(t.meaning.name, None, None, t.terms)
  }

  function RedeclaredAll(tools: seq<Tool>): seq<ToolDeclaration> {
    seq(|tools|, i requires 0 <= i < |tools| => Redeclared(tools[i]))
  }

  /** The reviewed declaration of a revision, without expected digests. */
  function DeclarationOf(d: Descriptor): Declaration {
    Declaration(d.resource, d.transport, d.protocol, d.provenance, None, RedeclaredAll(d.tools), d.dataClass,
                d.networkScope, d.licenses)
  }

  /** Refresh.Advance on a live read: the digest of the rebuilt revision, if it can be rebuilt. */
  function LiveDigest(reviewed: Descriptor, live: Live, resources: seq<Named>, prompts: seq<Named>): Option<Covered> {
    match Build(DeclarationOf(reviewed), live, resources, prompts)
    case Err(_) => None
    case Ok(rebuilt) => Some(rebuilt.digest)
  }

  predicate Drift(reviewed: Descriptor, live: Live, resources: seq<Named>, prompts: seq<Named>) {
    LiveDigest(reviewed, live, resources, prompts) != Some(reviewed.digest)
  }

  /** The comparison of Refresh.Advance. */
  method Compare(reviewed: Descriptor, live: Live) returns (digest: Option<Covered>, drift: bool, parts: seq<Part>)
    ensures exists rs, ps :: IsSorting(live.resources, rs, NamedKey) && IsSorting(live.prompts, ps, NamedKey)
              && digest == LiveDigest(reviewed, live, rs, ps) && (drift <==> Drift(reviewed, live, rs, ps))
              && parts == if digest.None? then []
                else Differences(reviewed, Build(DeclarationOf(reviewed), live, rs, ps).value)
  {
    hide Build, IsSorting, Differences;
    var rebuilt := BuildDescriptor(DeclarationOf(reviewed), live);
    digest, parts := None, [];
    if rebuilt.Ok? {
      digest := Some(rebuilt.value.digest);
      parts := DriftReason(reviewed, rebuilt.value);
    }
    drift := digest != Some(reviewed.digest);
  }

  // ---------------------------------------------------------------- what a built revision is

  predicate Connects(d: Declaration) {
    d.transport == StreamableHttp && !d.dataClass.OtherClass? && CheckResource(d.resource, true).Ok?
  }

  ghost predicate AllLive(ts: seq<LiveTool>, declared: map<string, ToolDeclaration>) {
    AllFit(ts, declared) && LiveNames(ts) == declared.Keys
  }

  function Tools(ts: seq<LiveTool>, declared: map<string, ToolDeclaration>): seq<Tool>
    requires AllFit(ts, declared)
  {
    SortBy(Bound(ts, declared), ToolName)
  }

  lemma NoneLeft(names: set<string>, declared: map<string, ToolDeclaration>)
    requires names <= declared.Keys
    ensures declared - names == map[] <==> names == declared.Keys
  {
    var left := declared - names;
    assert left.Keys == declared.Keys - names;
    if names == declared.Keys { assert left.Keys == {}; assert left == map[]; }
    assert forall n | n in declared && n !in names :: n in left;
  }

  /** The live methods are the declared ones exactly when nothing is left over. */
  lemma NothingLeft(ts: seq<LiveTool>, declared: map<string, ToolDeclaration>)
    ensures var b := BindAll(ts, Binding([], map[], declared));
      && (b.Ok? && b.value.left == map[] <==> AllLive(ts, declared))
      && (AllLive(ts, declared) ==> SortBy(b.value.tools, ToolName) == Tools(ts, declared))
  {
    hide BindAll, SortBy;
    BoundIs(ts, Binding([], map[], declared));
    if AllFit(ts, declared) {
      assert [] + Bound(ts, declared) == Bound(ts, declared);
      NoneLeft(LiveNames(ts), declared);
    }
  }

  /** A build succeeds exactly when the listing is acceptable, the protocol is the declared one, the live methods are
      the declared ones with the declared schemas, and the digest is the expected one. */
  lemma BuildIs(d: Declaration, live: Live, rs: seq<Named>, ps: seq<Named>)
    ensures var r, declared := Build(d, live, rs, ps), DeclareAll(d.tools, map[]);
      && (r.Ok? <==> Connects(d) && live.protocol == d.protocol && declared.Ok? && AllLive(live.tools, declared.value)
                     && (d.expected.Some? ==> d.expected.value == Digested(d, live, rs, ps, declared.value)))
      && (r.Ok? ==> r.value.tools == Tools(live.tools, declared.value) && r.value.digest == Digested(d, live, rs, ps,
          declared.value))
      && (r.Ok? ==> r.value.networkScope == NetworkScope(d.networkScope, CheckResource(d.resource, true).value))
      && (r.Ok? ==> r.value.licenses == Normalize(d.licenses) && r.value.resources == rs && r.value.prompts == ps)
      && (r.Ok? ==> r.value.resource == d.resource && r.value.transport == d.transport && r.value.protocol == d.protocol
                    && r.value.dataClass == d.dataClass && r.value.issuer == live.issuer
                        && r.value.serverName == live.name && r.value.serverVersion == live.version)
  {
    hide BindAll, SortBy, DeclareAll, NetworkScope, Normalize, CheckResource, AllLive, Tools;
    var declared := DeclareAll(d.tools, map[]);
    if declared.Ok? { NothingLeft(live.tools, declared.value); }
  }

  function Digested(d: Declaration, live: Live, rs: seq<Named>, ps: seq<Named>,
                    declared: map<string, ToolDeclaration>): Covered
    requires Connects(d) && AllFit(live.tools, declared)
  {
    DigestOf(d, live, Tools(live.tools, declared), rs, ps,
             NetworkScope(d.networkScope, CheckResource(d.resource, true).value), Normalize(d.licenses))
  }

  // ---------------------------------------------------------------- methods, rebuilt

  /** A revision's methods: strictly ordered by name, each with acceptable terms. */
  ghost predicate ToolsOk(tools: seq<Tool>) {
    StrictBy(tools, ToolName) && forall t | t in tools :: DeclarationOk(Redeclared(t))
  }

  function LiveMeanings(ts: seq<LiveTool>): set<Result<Meaning, Error>> {
    set t | t in ts :: MeaningOf(t)
  }

  function ToolMeanings(tools: seq<Tool>): set<Result<Meaning, Error>> {
    set t | t in tools :: Ok(t.meaning)
  }

  lemma BoundMembers(ts: seq<LiveTool>, declared: map<string, ToolDeclaration>)
    requires AllFit(ts, declared)
    ensures forall t | t in ts :: BoundTool(t, declared) in Tools(ts, declared)
    ensures forall x | x in Tools(ts, declared) :: exists t :: t in ts && BoundTool(t, declared) == x
    ensures StrictBy(Tools(ts, declared), ToolName)
  {
    hide SortBy;
    var bound := Bound(ts, declared);
    SortMembers(bound, ToolName);
    forall t | t in ts ensures BoundTool(t, declared) in Tools(ts, declared) {
      var i :| 0 <= i < |ts| && ts[i] == t;
      assert bound[i] == BoundTool(t, declared);
    }
    forall x | x in Tools(ts, declared) ensures exists t :: t in ts && BoundTool(t, declared) == x {
      var i :| 0 <= i < |bound| && bound[i] == x;
      assert ts[i] in ts && BoundTool(ts[i], declared) == x;
    }
    assert DistinctBy(bound, ToolName) by {
      forall i, j | 0 <= i < j < |bound| ensures ToolName(bound[i]) != ToolName(bound[j]) {
        assert ts[i] in ts && ts[j] in ts;
        assert LiveName(ts[i]) != LiveName(ts[j]);
        assert bound[i] == BoundTool(ts[i], declared) && bound[j] == BoundTool(ts[j], declared);
      }
    }
    SortIsStrict(bound, ToolName);
  }

  /** What is built from acceptable declarations is acceptable, and means what is live. */
  lemma BuiltTools(ds: seq<ToolDeclaration>, ts: seq<LiveTool>)
    requires DeclareAll(ds, map[]).Ok? && AllFit(ts, DeclareAll(ds, map[]).value)
    ensures var tools := Tools(ts, DeclareAll(ds, map[]).value);
      ToolsOk(tools) && ToolMeanings(tools) == LiveMeanings(ts)
  {
    hide DeclareAll, Tools, SortBy;
    var declared := DeclareAll(ds, map[]).value;
    var tools := Tools(ts, declared);
    DeclaredIs(ds, map[]);
    BoundMembers(ts, declared);
    forall x | x in tools ensures DeclarationOk(Redeclared(x)) && Ok(x.meaning) in LiveMeanings(ts) {
      var t :| t in ts && BoundTool(t, declared) == x;
      assert Fits(t, declared);
    }
    forall t | t in ts ensures MeaningOf(t) in ToolMeanings(tools) {
      assert Fits(t, declared) && BoundTool(t, declared) in tools;
    }
  }

  lemma RedeclaredNames(tools: seq<Tool>)
    requires ToolsOk(tools)
    ensures var r := DeclareAll(RedeclaredAll(tools), map[]); r.Ok? && Redeclares(r.value, tools)
  {
    hide DeclareAll;
    var ds := RedeclaredAll(tools);
    DeclaredIs(ds, map[]);
    forall i, j | 0 <= i < j < |ds| ensures DeclaredName(ds[i]) != DeclaredName(ds[j]) {
      LessIsStrict(ToolName(tools[i]), ToolName(tools[j]));
    }
    forall t | t in tools ensures Redeclared(t) in ds {
      var i :| 0 <= i < |tools| && tools[i] == t;
      assert ds[i] == Redeclared(t);
    }
    forall d | d in ds ensures exists t :: t in tools && d == Redeclared(t) {
      var i :| 0 <= i < |ds| && ds[i] == d;
      assert tools[i] in tools && d == Redeclared(tools[i]);
    }
  }

  /** Rebuilt against its own declarations, a list of live methods gives the same methods if and only if their names
      are distinct and they mean the same. */
  lemma ToolsRebuilt(tools: seq<Tool>, ts: seq<LiveTool>)
    requires ToolsOk(tools)
    ensures var r := DeclareAll(RedeclaredAll(tools), map[]);
      r.Ok? && (AllLive(ts, r.value) && Tools(ts, r.value) == tools
                <==> DistinctBy(ts, LiveName) && LiveMeanings(ts) == ToolMeanings(tools))
  {
    hide DeclareAll, Tools, SortBy, StrictBy;
    RedeclaredNames(tools);
    var declared := DeclareAll(RedeclaredAll(tools), map[]).value;
    if AllLive(ts, declared) && Tools(ts, declared) == tools {
      BoundMembers(ts, declared);
      SameMeanings(tools, ts, declared);
    }
    if DistinctBy(ts, LiveName) && LiveMeanings(ts) == ToolMeanings(tools) {
      MeansAllLive(tools, ts, declared);
      BoundMembers(ts, declared);
      SameTools(tools, ts, declared);
      StrictAlike(Tools(ts, declared), tools, ToolName);
    }
  }

  lemma SameMeanings(tools: seq<Tool>, ts: seq<LiveTool>, declared: map<string, ToolDeclaration>)
    requires AllFit(ts, declared) && Tools(ts, declared) == tools
    ensures LiveMeanings(ts) == ToolMeanings(tools)
  {
    hide Tools;
    BoundMembers(ts, declared);
    forall t | t in ts ensures MeaningOf(t) in ToolMeanings(tools) {
      assert Fits(t, declared) && BoundTool(t, declared) in tools;
    }
    forall x | x in tools ensures Ok(x.meaning) in LiveMeanings(ts) {
      var t :| t in ts && BoundTool(t, declared) == x;
      assert Fits(t, declared);
    }
  }

  /** The map of a revision's own declarations. */
  ghost predicate Redeclares(declared: map<string, ToolDeclaration>, tools: seq<Tool>) {
    && (forall t | t in tools :: t.meaning.name in declared && declared[t.meaning.name] == Redeclared(t))
    && (forall n | n in declared :: exists t :: t in tools && t.meaning.name == n && declared[n] == Redeclared(t))
  }

  lemma MeansAllLive(tools: seq<Tool>, ts: seq<LiveTool>, declared: map<string, ToolDeclaration>)
    requires Redeclares(declared, tools) && DistinctBy(ts, LiveName) && LiveMeanings(ts) == ToolMeanings(tools)
    ensures AllLive(ts, declared)
  {
    forall t | t in ts ensures Fits(t, declared) {
      assert MeaningOf(t) in ToolMeanings(tools);
      var x :| x in tools && Ok(x.meaning) == MeaningOf(t);
    }
    forall n | n in declared ensures n in LiveNames(ts) {
      var x :| x in tools && x.meaning.name == n;
      assert Ok(x.meaning) in LiveMeanings(ts);
      var t :| t in ts && MeaningOf(t) == Ok(x.meaning);
      assert t.name == n;
    }
  }

  lemma SameTools(tools: seq<Tool>, ts: seq<LiveTool>, declared: map<string, ToolDeclaration>)
    requires Redeclares(declared, tools) && AllFit(ts, declared) && LiveMeanings(ts) == ToolMeanings(tools)
    ensures SameMembers(Tools(ts, declared), tools)
  {
    hide Tools;
    BoundMembers(ts, declared);
    forall x | x in Tools(ts, declared) ensures x in tools {
      var t :| t in ts && BoundTool(t, declared) == x;
      assert Fits(t, declared) && MeaningOf(t) in ToolMeanings(tools);
      var y :| y in tools && Ok(y.meaning) == MeaningOf(t);
      assert y == x;
    }
    forall x | x in tools ensures x in Tools(ts, declared) {
      assert Ok(x.meaning) in LiveMeanings(ts);
      var t :| t in ts && MeaningOf(t) == Ok(x.meaning);
      assert Fits(t, declared) && BoundTool(t, declared) == x;
    }
  }

  // ---------------------------------------------------------------- why it drifted

  datatype Part = ServerPart | InputPart(tool: string) | OutputPart(tool: string) | AnnotationsPart(tool: string)
      | ResourcesPart | PromptsPart | IssuerPart

  function Find(tools: seq<Tool>, name: string): Option<Tool> {
    if tools == [] then None else if ToolName(tools[0]) == name then Some(tools[0]) else Find(tools[1..], name)
  }

  /** The first difference of one reviewed method from the live one under its name. */
  function ToolPart(t: Tool, live: seq<Tool>): seq<Part> {
    var found := Find(live, t.meaning.name);
    if found.None? || t.meaning.input != found.value.meaning.input then [InputPart(t.meaning.name)]
    else if t.meaning.output != found.value.meaning.output then [OutputPart(t.meaning.name)]
    else if t.meaning.annotations != found.value.meaning.annotations then [AnnotationsPart(t.meaning.name)]
    else []
  }

  function ToolParts(reviewed: seq<Tool>, live: seq<Tool>): seq<Part> {
    if reviewed == [] then [] else ToolParts(reviewed[..|reviewed| - 1], live) + ToolPart(reviewed[|reviewed| - 1],
        live)
  }

  function ServerParts(reviewed: Descriptor, live: Descriptor): seq<Part> {
    if reviewed.serverName != live.serverName || reviewed.serverVersion != live.serverVersion then [ServerPart] else []
  }

  function OtherParts(reviewed: Descriptor, live: Descriptor): seq<Part> {
    (if reviewed.resources != live.resources then [ResourcesPart] else [])
    + (if reviewed.prompts != live.prompts then [PromptsPart] else [])
    + (if reviewed.issuer != live.issuer then [IssuerPart] else [])
  }

  function Differences(reviewed: Descriptor, live: Descriptor): seq<Part> {
    ServerParts(reviewed, live) + ToolParts(reviewed.tools, live.tools) + OtherParts(reviewed, live)
  }

  /** The method under the name is missing, or differs first in what the part says. */
  predicate FirstDifference(t: Tool, live: seq<Tool>, part: Part) {
    match Find(live, ToolName(t))
    case None => part == InputPart(t.meaning.name)
    case Some(x) =>
      || (part == InputPart(t.meaning.name) && t.meaning.input != x.meaning.input)
      || (part == OutputPart(t.meaning.name) && t.meaning.input == x.meaning.input
          && t.meaning.output != x.meaning.output)
      || (part == AnnotationsPart(t.meaning.name) && t.meaning.input == x.meaning.input
          && t.meaning.output == x.meaning.output && t.meaning.annotations != x.meaning.annotations)
  }

  lemma {:induction false} ToolPartsName(reviewed: seq<Tool>, live: seq<Tool>, part: Part)
    ensures part in ToolParts(reviewed, live) <==> exists t :: t in reviewed && FirstDifference(t, live, part)
  {
    hide Find;
    if reviewed != [] {
      var init, last := reviewed[..|reviewed| - 1], reviewed[|reviewed| - 1];
      ToolPartsName(init, live, part);
      assert reviewed == init + [last];
      assert part in ToolPart(last, live) <==> FirstDifference(last, live, part);
      if FirstDifference(last, live, part) { assert last in reviewed; }
      if part in ToolParts(init, live) {
        var t :| t in init && FirstDifference(t, live, part);
        assert t in reviewed;
      }
    }
  }

  /** A part is named exactly when it differs. */
  lemma PartsNameTheDifference(reviewed: Descriptor, live: Descriptor, part: Part)
    ensures part in Differences(reviewed, live) <==>
              match part
              case ServerPart => reviewed.serverName != live.serverName || reviewed.serverVersion != live.serverVersion
              case ResourcesPart => reviewed.resources != live.resources
              case PromptsPart => reviewed.prompts != live.prompts
              case IssuerPart => reviewed.issuer != live.issuer
              case _ => exists t :: t in reviewed.tools && FirstDifference(t, live.tools, part)
  {
    ToolPartsName(reviewed.tools, live.tools, part);
    hide ToolParts;
    if part.ServerPart? || part.ResourcesPart? || part.PromptsPart? || part.IssuerPart? {
      assert !exists t :: t in reviewed.tools && FirstDifference(t, live.tools, part);
    }
  }

  /** driftReason. */
  method DriftReason(reviewed: Descriptor, live: Descriptor) returns (parts: seq<Part>)
    ensures parts == Differences(reviewed, live)
  {
    hide OtherParts;
    parts := ServerParts(reviewed, live);
    for i := 0 to |reviewed.tools|
      invariant parts == ServerParts(reviewed, live) + ToolParts(reviewed.tools[..i], live.tools)
    {
      hide ServerParts, ToolPart;
      assert reviewed.tools[..i + 1][..i] == reviewed.tools[..i];
      parts := parts + ToolPart(reviewed.tools[i], live.tools);
    }
    assert reviewed.tools[..|reviewed.tools|] == reviewed.tools;
    parts := parts + OtherParts(reviewed, live);
  }

  // ---------------------------------------------------------------- no false drift, no hidden one

  lemma ScopeIsStable(declared: seq<string>, host: string)
    ensures var scope := NetworkScope(declared, host); NetworkScope(scope, host) == scope
  {
    hide Normalize, Fold;
    var n := Normalize(declared);
    NormalizeAlike(n, declared, None);
    if host !in n {
      var xs := n + [host];
      var more := Normalize(xs);
      NormalizeIs(xs);
      assert Fold(host) != "" ==> Stands(xs, Fold(host)) by { assert host in xs; }
      NormalizeAlike(more, xs, Some(host));
    }
  }

  /** The server means the same: its identity, and its methods under distinct names. */
  ghost predicate SameServer(live: Live, again: Live) {
    && again.name == live.name && again.version == live.version && again.protocol == live.protocol
        && again.issuer == live.issuer
    && DistinctBy(again.tools, LiveName) && LiveMeanings(again.tools) == LiveMeanings(live.tools)
  }

  /** A refresh records no drift if and only if the server means the same and its named lists sorted the same: no false
      drift, and none hidden. */
  lemma NoDriftExactly(d: Declaration, live: Live, rs: seq<Named>, ps: seq<Named>, again: Live, rs': seq<Named>,
                       ps': seq<Named>)
    requires Build(d, live, rs, ps).Ok?
    ensures !Drift(Build(d, live, rs, ps).value, again, rs', ps') <==> SameServer(live, again) && rs' == rs && ps' == ps
  {
    hide Build, DeclareAll, AllLive, Tools, NetworkScope, Normalize, CheckResource, LiveMeanings, ToolMeanings,
         RedeclaredAll, ToolsOk;
    var desc := Build(d, live, rs, ps).value;
    BuildIs(d, live, rs, ps);
    AllLiveFit(live.tools, DeclareAll(d.tools, map[]).value);
    BuiltTools(d.tools, live.tools);
    ToolsRebuilt(desc.tools, again.tools);
    BuildIs(DeclarationOf(desc), again, rs', ps');
    ScopeIsStable(d.networkScope, CheckResource(d.resource, true).value);
    NormalizeIsIdempotent(d.licenses);
  }

  /** The digest is over exactly these fields of a revision. */
  function CoveredFields(d: Descriptor): Covered {
    Covered(d.resource.text, d.transport, d.protocol, d.serverName, d.serverVersion, d.tools, d.resources, d.prompts,
            d.dataClass,
            d.networkScope, d.licenses, d.issuer)
  }

  /** No recorded drift: every field the digest covers is the reviewed one. */
  lemma NoDriftCoversFields(d: Declaration, live: Live, rs: seq<Named>, ps: seq<Named>, again: Live, rs': seq<Named>,
                            ps': seq<Named>)
    requires Build(d, live, rs, ps).Ok? && !Drift(Build(d, live, rs, ps).value, again, rs', ps')
    ensures var desc := Build(d, live, rs, ps).value; var rebuilt := Build(DeclarationOf(desc), again, rs', ps');
      desc.digest == CoveredFields(desc) && rebuilt.Ok? && CoveredFields(rebuilt.value) == CoveredFields(desc)
  {
    hide Build;
    BuildIs(d, live, rs, ps);
    BuildIs(DeclarationOf(Build(d, live, rs, ps).value), again, rs', ps');
  }

  lemma AllLiveFit(ts: seq<LiveTool>, declared: map<string, ToolDeclaration>)
    requires AllLive(ts, declared)
    ensures AllFit(ts, declared)
  {
  }

  /** The same server read again, its methods and named lists in any order, through any connection. */
  ghost predicate Reordered(live: Live, again: Live) {
    && again.name == live.name && again.version == live.version && again.protocol == live.protocol
        && again.issuer == live.issuer
    && multiset(again.tools) == multiset(live.tools)
    && multiset(again.resources) == multiset(live.resources) && multiset(again.prompts) == multiset(live.prompts)
  }

  lemma ReorderedNames(ts: seq<LiveTool>, us: seq<LiveTool>)
    requires multiset(us) == multiset(ts) && DistinctBy(ts, LiveName)
    ensures DistinctBy(us, LiveName) && LiveMeanings(us) == LiveMeanings(ts)
  {
    assert forall t :: t in ts <==> t in multiset(ts);
    assert forall t :: t in us <==> t in multiset(us);
    assert Separate(ts, LiveName);
    SeparateWithin(ts, us, LiveName);
    forall i, j | 0 <= i < j < |us| ensures LiveName(us[i]) != LiveName(us[j]) {
      if LiveName(us[i]) == LiveName(us[j]) {
        assert us[i] == us[j];
        Twice(us, i, j);
        Once(ts, us[i]);
      }
    }
  }

  lemma Twice(us: seq<LiveTool>, i: nat, j: nat)
    requires i < j < |us| && us[i] == us[j]
    ensures multiset(us)[us[i]] >= 2
  {
    assert us == us[..i] + [us[i]] + us[i + 1..j] + [us[j]] + us[j + 1..];
  }

  lemma {:induction false} Once(ts: seq<LiveTool>, t: LiveTool)
    requires DistinctBy(ts, LiveName)
    ensures multiset(ts)[t] <= 1
  {
    if ts != [] {
      Sorting.Split(ts);
      Once(ts[1..], t);
    }
  }

  /** The refresh round trip: against the same server in any order the rebuild always succeeds, and with the same
      digest if and only if the named lists sorted the same. */
  lemma RebuildSucceeds(d: Declaration, live: Live, rs: seq<Named>, ps: seq<Named>, again: Live, rs': seq<Named>,
                        ps': seq<Named>)
    requires Build(d, live, rs, ps).Ok? && Reordered(live, again)
    ensures LiveDigest(Build(d, live, rs, ps).value, again, rs', ps').Some?
    ensures !Drift(Build(d, live, rs, ps).value, again, rs', ps') <==> rs' == rs && ps' == ps
  {
    hide Build, DistinctBy, LiveMeanings, AllLive;
    BuildIs(d, live, rs, ps);
    AllLiveFit(live.tools, DeclareAll(d.tools, map[]).value);
    ReorderedNames(live.tools, again.tools);
    NoDriftExactly(d, live, rs, ps, again, rs, ps);
    NoDriftExactly(d, live, rs, ps, again, rs', ps');
    var desc := Build(d, live, rs, ps).value;
    BuildIs(DeclarationOf(desc), again, rs, ps);
    BuildIs(DeclarationOf(desc), again, rs', ps');
  }

  /** Separate keys are enough whatever the sort: no reading of the same server, in any order it lists things, is
      taken for drift. */
  lemma NoFalseDrift(d: Declaration, live: Live, rs: seq<Named>, ps: seq<Named>, again: Live, rs': seq<Named>,
                     ps': seq<Named>)
    requires Build(d, live, rs, ps).Ok? && IsSorting(live.resources, rs, NamedKey)
        && IsSorting(live.prompts, ps, NamedKey)
    requires Reordered(live, again) && IsSorting(again.resources, rs', NamedKey)
        && IsSorting(again.prompts, ps', NamedKey)
    requires Separate(live.resources, NamedKey) && Separate(live.prompts, NamedKey)
    ensures !Drift(Build(d, live, rs, ps).value, again, rs', ps')
  {
    hide Build, Drift, Separate, SortedBy;
    SortIsDetermined(live.resources, NamedKey);
    SortIsDetermined(live.prompts, NamedKey);
    assert IsSorting(live.resources, rs', NamedKey) && IsSorting(live.prompts, ps', NamedKey);
    RebuildSucceeds(d, live, rs, ps, again, rs', ps');
  }

  /** With any deterministic sort that compares keys only, no reading of the same server is ever taken for drift,
      whatever the order it lists things in, if and only if different entries of its named lists have different
      keys. */
  lemma RefreshRoundTrip(d: Declaration, live: Live, order: seq<string> -> seq<nat>)
    requires KeySort(order) && Build(d, live, Sorted(live.resources, NamedKey, order),
                                     Sorted(live.prompts, NamedKey, order)).Ok?
    ensures var desc := Build(d, live, Sorted(live.resources, NamedKey, order),
                              Sorted(live.prompts, NamedKey, order)).value;
      (forall again | Reordered(live, again) ::
         !Drift(desc, again, Sorted(again.resources, NamedKey, order), Sorted(again.prompts, NamedKey, order)))
      <==> Separate(live.resources, NamedKey) && Separate(live.prompts, NamedKey)
  {
    hide Build, Drift, Separate, Sorted, KeySort;
    var rs, ps := Sorted(live.resources, NamedKey, order), Sorted(live.prompts, NamedKey, order);
    var desc := Build(d, live, rs, ps).value;
    KeySortIsDetermined(live.resources, NamedKey, order);
    KeySortIsDetermined(live.prompts, NamedKey, order);
    forall again | Reordered(live, again)
      ensures !Drift(desc, again, Sorted(again.resources, NamedKey, order), Sorted(again.prompts, NamedKey, order))
          <==> Sorted(again.resources, NamedKey, order) == rs && Sorted(again.prompts, NamedKey, order) == ps
    {
      RebuildSucceeds(d, live, rs, ps, again, Sorted(again.resources, NamedKey, order),
                      Sorted(again.prompts, NamedKey, order));
    }
    if !Separate(live.resources, NamedKey) {
      var ys :| multiset(ys) == multiset(live.resources) && Sorted(ys, NamedKey, order) != rs;
      assert Reordered(live, live.(resources := ys));
    }
    if !Separate(live.prompts, NamedKey) {
      var ys :| multiset(ys) == multiset(live.prompts) && Sorted(ys, NamedKey, order) != ps;
      assert Reordered(live, live.(prompts := ys));
    }
  }

  /** Names without NUL keep the keys of different entries apart. */
  lemma NulFreeNamesAreSeparate(xs: seq<Named>)
    requires forall x | x in xs :: '\0' !in x.name
    ensures Separate(xs, NamedKey)
  {
    forall a, b | a in xs && b in xs && NamedKey(a) == NamedKey(b) ensures a == b {
      Encoding.CutOnce(a.name, '\0', a.uri, b.name, b.uri);
    }
  }

  /** With NUL in a name they may fall together. */
  lemma NulIsNotSeparated()
    ensures !Separate([Named("a", "b\0c"), Named("a\0b", "c")], NamedKey)
  {
    var a, b := Named("a", "b\0c"), Named("a\0b", "c");
    assert NamedKey(a) == "a\0b\0c" && NamedKey(b) == "a\0b\0c";
    assert a in [a, b] && b in [a, b] && a != b;
  }

  // ---------------------------------------------------------------- a drift is always named

  lemma {:induction false} FindsTool(tools: seq<Tool>, t: Tool)
    requires StrictBy(tools, ToolName) && t in tools
    ensures Find(tools, ToolName(t)) == Some(t)
  {
    if ToolName(tools[0]) == ToolName(t) {
      var i :| 0 <= i < |tools| && tools[i] == t;
      LessIsStrict(ToolName(t), ToolName(t));
    } else {
      FindsTool(tools[1..], t);
    }
  }

  lemma {:induction false} NoToolParts(reviewed: seq<Tool>, live: seq<Tool>)
    ensures ToolParts(reviewed, live) == [] <==> forall t | t in reviewed :: ToolPart(t, live) == []
  {
    hide ToolPart;
    if reviewed != [] {
      var init, last := reviewed[..|reviewed| - 1], reviewed[|reviewed| - 1];
      NoToolParts(init, live);
      assert reviewed == init + [last];
      assert last in reviewed;
    }
  }

  /** The list has a method of the same name under the same terms. */
  ghost predicate HasPartner(t: Tool, tools: seq<Tool>) {
    exists x :: x in tools && ToolName(x) == ToolName(t) && x.terms == t.terms
  }

  ghost predicate Paired(tools: seq<Tool>, again: seq<Tool>) {
    (forall t | t in tools :: HasPartner(t, again)) && (forall x | x in again :: HasPartner(x, tools))
  }

  lemma KeepsPartner(ts: seq<LiveTool>, declared: map<string, ToolDeclaration>, t: Tool)
    requires AllLive(ts, declared) && ToolName(t) in declared && declared[ToolName(t)] == Redeclared(t)
    ensures HasPartner(t, Tools(ts, declared))
  {
    hide Tools, StrictBy, DistinctBy, SchemaDigest, AnnotationsDigest;
    assert ToolName(t) in LiveNames(ts);
    BoundMembers(ts, declared);
    var lt :| lt in ts && lt.name == ToolName(t);
    var x := BoundTool(lt, declared);
    assert x in Tools(ts, declared) && ToolName(x) == ToolName(t) && x.terms == t.terms;
  }

  lemma ItsDeclaration(declared: map<string, ToolDeclaration>, tools: seq<Tool>, t: Tool)
    requires Redeclares(declared, tools) && t in tools
    ensures ToolName(t) in declared && declared[ToolName(t)] == Redeclared(t)
  {
  }

  lemma CameFromPartner(tools: seq<Tool>, ts: seq<LiveTool>, declared: map<string, ToolDeclaration>, x: Tool)
    requires Redeclares(declared, tools) && AllFit(ts, declared) && x in Tools(ts, declared)
    ensures HasPartner(x, tools)
  {
    hide Tools;
    BoundMembers(ts, declared);
    var lt :| lt in ts && BoundTool(lt, declared) == x;
    assert Fits(lt, declared) && lt.name in declared;
    var t :| t in tools && t.meaning.name == lt.name && declared[lt.name] == Redeclared(t);
    assert ToolName(t) == ToolName(x) && t.terms == x.terms;
  }

  /** Methods rebuilt from their own declarations have the same names and terms. */
  lemma SameTerms(tools: seq<Tool>, ts: seq<LiveTool>)
    requires ToolsOk(tools) && DeclareAll(RedeclaredAll(tools), map[]).Ok?
        && AllLive(ts, DeclareAll(RedeclaredAll(tools), map[]).value)
    ensures var again := Tools(ts, DeclareAll(RedeclaredAll(tools), map[]).value);
      StrictBy(again, ToolName) && Paired(tools, again)
  {
    hide DeclareAll, Tools, StrictBy, Redeclares, HasPartner, RedeclaredAll, AllFit;
    var declared := DeclareAll(RedeclaredAll(tools), map[]).value;
    RedeclaredNames(tools);
    BoundMembers(ts, declared);
    forall t | t in tools ensures HasPartner(t, Tools(ts, declared)) {
      ItsDeclaration(declared, tools, t);
      KeepsPartner(ts, declared, t);
    }
    forall x | x in Tools(ts, declared) ensures HasPartner(x, tools) { CameFromPartner(tools, ts, declared, x); }
  }

  lemma PartIsMember(t: Tool, again: seq<Tool>)
    requires StrictBy(again, ToolName) && HasPartner(t, again)
    ensures ToolPart(t, again) == [] <==> t in again
  {
    hide Find, StrictBy;
    var x :| x in again && ToolName(x) == ToolName(t) && x.terms == t.terms;
    FindsTool(again, x);
    if t in again { FindsTool(again, t); }
  }

  lemma SameName(again: seq<Tool>, x: Tool, t: Tool)
    requires StrictBy(again, ToolName) && x in again && t in again && ToolName(x) == ToolName(t)
    ensures x == t
  {
    hide Find, StrictBy;
    FindsTool(again, x);
    FindsTool(again, t);
  }

  lemma PairedAlike(tools: seq<Tool>, again: seq<Tool>)
    requires StrictBy(tools, ToolName) && StrictBy(again, ToolName) && Paired(tools, again)
    ensures tools == again <==> ToolParts(tools, again) == []
  {
    hide ToolParts, StrictBy, ToolPart;
    NoToolParts(tools, again);
    forall t | t in tools ensures ToolPart(t, again) == [] <==> t in again { PartIsMember(t, again); }
    if ToolParts(tools, again) == [] {
      forall x | x in again ensures x in tools {
        assert HasPartner(x, tools);
        var t :| t in tools && ToolName(t) == ToolName(x);
        assert ToolPart(t, again) == [];
        SameName(again, x, t);
      }
      StrictAlike(tools, again, ToolName);
    }
  }

  /** When the server can be rebuilt, a drift always has a named reason, and a reason always is a drift: the fallback
      text of a drift without one is never used. */
  lemma DriftIsNamed(d: Declaration, live: Live, rs: seq<Named>, ps: seq<Named>, again: Live, rs': seq<Named>,
                     ps': seq<Named>)
    requires Build(d, live, rs, ps).Ok? && Build(DeclarationOf(Build(d, live, rs, ps).value), again, rs', ps').Ok?
    ensures var desc := Build(d, live, rs, ps).value;
      Drift(desc, again, rs', ps') <==> Differences(desc, Build(DeclarationOf(desc), again, rs', ps').value) != []
  {
    hide Build, DeclareAll, AllLive, Tools, NetworkScope, Normalize, CheckResource, LiveMeanings, ToolMeanings,
         RedeclaredAll, ToolParts;
    var desc := Build(d, live, rs, ps).value;
    BuildIs(d, live, rs, ps);
    AllLiveFit(live.tools, DeclareAll(d.tools, map[]).value);
    BuiltTools(d.tools, live.tools);
    BuildIs(DeclarationOf(desc), again, rs', ps');
    SameTerms(desc.tools, again.tools);
    PairedAlike(desc.tools, Build(DeclarationOf(desc), again, rs', ps').value.tools);
    ScopeIsStable(d.networkScope, CheckResource(d.resource, true).value);
    NormalizeIsIdempotent(d.licenses);
  }
}
