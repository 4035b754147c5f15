/** When a listing and a live server make a descriptor, said on their own fields, and with what refusal when they do
    not. */
module Listing {
  import opened Basics
  import opened Sorting
  import opened Catalog
  import opened Refresh

  /** The text a schema digests as: an absent one as null, one that is not JSON as nothing. */
  function Text(s: Schema): Option<string> {
    match s
    case NoSchema => Some("null")
    case Document(_, canonical) => Some(canonical)
    case NotJson(_) => None
  }

  /** Everything of the live method can be digested. */
  predicate Readable(t: LiveTool) {
    Text(t.input).Some? && Text(t.output).Some? && t.annotations != NotAnObject
  }

  /** The live schemas are the declared ones, where any are declared. */
  predicate SchemasAgree(x: ToolDeclaration, t: LiveTool) {
    && (x.input.Some? ==> Text(t.input) == x.input)
    && (x.output.Some? ==> Text(t.output) == x.output)
  }

  predicate NamesDiffer(xs: seq<ToolDeclaration>) {
    forall i, j | 0 <= i < j < |xs| :: xs[i].name != xs[j].name
  }

  predicate LiveNamesDiffer(ts: seq<LiveTool>) {
    forall i, j | 0 <= i < j < |ts| :: ts[i].name != ts[j].name
  }

  predicate PriceOk(x: ToolDeclaration) {
    x.terms.price.amount >= 0 && |x.terms.price.currency| == 3
  }

  predicate DeclaresWell(xs: seq<ToolDeclaration>) {
    NamesDiffer(xs) && forall x | x in xs :: x.name != "" && PriceOk(x)
  }

  /** The listing names a server that can be connected to. */
  predicate Connectable(d: Declaration) {
    && d.transport == StreamableHttp
    && (d.dataClass == Public || d.dataClass == Internal || d.dataClass == Confidential || d.dataClass == Restricted)
    && var u := d.resource;
    && u.parses && u.absolute && u.host != "" && u.rooted && !u.userinfo && u.query == "" && u.fragment == ""
    && (u.scheme == Https || u.scheme == Http)
  }

  /** The live method is declared, can be digested and has the declared schemas. */
  ghost predicate Bindable(xs: seq<ToolDeclaration>, t: LiveTool) {
    exists x :: x in xs && x.name == t.name && Readable(t) && SchemasAgree(x, t)
  }

  /** The live methods are the declared ones. */
  ghost predicate SameMethods(xs: seq<ToolDeclaration>, ts: seq<LiveTool>) {
    && LiveNamesDiffer(ts) && (forall t | t in ts :: Bindable(xs, t))
    && forall x | x in xs :: exists t :: t in ts && t.name == x.name
  }

  // ---------------------------------------------------------------- the pieces

  lemma MeaningIsReadable(t: LiveTool)
    ensures MeaningOf(t).Ok? <==> Readable(t)
    ensures Readable(t) ==> Text(t.input) == Some(MeaningOf(t).value.input)
    ensures Readable(t) ==> Text(t.output) == Some(MeaningOf(t).value.output)
  {
  }

  lemma ConnectsExactly(d: Declaration)
    ensures Connects(d) <==> Connectable(d)
  {
  }

  lemma DeclaresExactly(xs: seq<ToolDeclaration>)
    ensures DeclareAll(xs, map[]).Ok? <==> DeclaresWell(xs)
  {
    DeclaredIs(xs, map[]);
    assert DistinctBy(xs, DeclaredName) <==> NamesDiffer(xs) by {
      if DistinctBy(xs, DeclaredName) {
        forall i, j | 0 <= i < j < |xs|
          ensures xs[i].name != xs[j].name { assert DeclaredName(xs[i]) != DeclaredName(xs[j]); }
      }
    }
    hide DeclareAll, DistinctBy, NamesDiffer;
    assert forall x | x in xs :: DeclarationOk(x) <==> x.name != "" && PriceOk(x);
  }

  /** A declaration is found by its name. */
  lemma FitsExactly(xs: seq<ToolDeclaration>, t: LiveTool)
    requires DeclareAll(xs, map[]).Ok?
    ensures Fits(t, DeclareAll(xs, map[]).value) <==> Bindable(xs, t)
  {
    var declared := DeclareAll(xs, map[]).value;
    DeclaredIs(xs, map[]);
    hide DeclareAll;
    MeaningIsReadable(t);
    hide MeaningOf, Text;
    if Fits(t, declared) {
      var x :| x in xs && x.name == t.name;
      assert declared[t.name] == x;
      assert SchemasAgree(x, t);
    }
    if Bindable(xs, t) {
      var x :| x in xs && x.name == t.name && Readable(t) && SchemasAgree(x, t);
      assert declared[t.name] == x;
    }
  }

  lemma LiveNamesExactly(ts: seq<LiveTool>)
    ensures DistinctBy(ts, LiveName) <==> LiveNamesDiffer(ts)
  {
    if DistinctBy(ts, LiveName) {
      forall i, j | 0 <= i < j < |ts| ensures ts[i].name != ts[j].name { assert LiveName(ts[i]) != LiveName(ts[j]); }
    }
  }

  lemma AllLiveExactly(xs: seq<ToolDeclaration>, ts: seq<LiveTool>)
    requires DeclareAll(xs, map[]).Ok?
    ensures AllLive(ts, DeclareAll(xs, map[]).value) <==> SameMethods(xs, ts)
  {
    var declared := DeclareAll(xs, map[]).value;
    DeclaredIs(xs, map[]);
    LiveNamesExactly(ts);
    forall t | t in ts ensures Fits(t, declared) <==> Bindable(xs, t) { FitsExactly(xs, t); }
    hide DeclareAll, Fits, Bindable, DistinctBy, LiveNamesDiffer;
    if AllLive(ts, declared) {
      forall x | x in xs ensures exists t :: t in ts && t.name == x.name {
        assert x.name in LiveNames(ts);
      }
    }
    if SameMethods(xs, ts) {
      forall n | n in declared ensures n in LiveNames(ts) {
        var x :| x in xs && x.name == n;
        var t :| t in ts && t.name == x.name;
      }
      forall n | n in LiveNames(ts) ensures n in declared {
        var t :| t in ts && t.name == n;
        assert Bindable(xs, t);
        BindableIsDeclared(xs, t, declared);
      }
      assert LiveNames(ts) == declared.Keys;
    }
  }

  lemma BindableIsDeclared(xs: seq<ToolDeclaration>, t: LiveTool, declared: map<string, ToolDeclaration>)
    requires Bindable(xs, t) && forall x | x in xs :: x.name in declared
    ensures t.name in declared
  {
  }

  // ---------------------------------------------------------------- success

  /** The listing and the server make a descriptor. */
  ghost predicate Makes(d: Declaration, live: Live) {
    Connectable(d) && live.protocol == d.protocol && DeclaresWell(d.tools) && SameMethods(d.tools, live.tools)
  }

  /** A descriptor is built if and only if the listing can be connected to and declares well, the server speaks the
      declared protocol, and its methods are exactly the declared ones with the declared schemas; and with an expected
      digest only if that is its digest. */
  lemma BuildsExactly(d: Declaration, live: Live, rs: seq<Named>, ps: seq<Named>)
    ensures var r := Build(d, live, rs, ps);
      && (d.expected.None? ==> (r.Ok? <==> Makes(d, live)))
      && (r.Ok? ==> Makes(d, live))
      && (r.Ok? && d.expected.Some? ==> r.value.digest == d.expected.value)
      && (r.Ok? ==> r.value.provenance == d.provenance && r.value.evidence == live.evidence)
      && (r.Ok? ==> r.value.connection == live.connection)
  {
    BuildIs(d, live, rs, ps);
    ConnectsExactly(d);
    DeclaresExactly(d.tools);
    if DeclareAll(d.tools, map[]).Ok? { AllLiveExactly(d.tools, live.tools); }
    hide DeclareAll, BindAll, AllLive, SameMethods, DeclaresWell, Connectable, Connects, SortBy, NetworkScope,
         Normalize;
  }

  /** For every declaration there is exactly one live method of its name, with the declared schemas. */
  lemma EveryDeclarationIsMet(d: Declaration, live: Live, rs: seq<Named>, ps: seq<Named>,
                              x: ToolDeclaration) returns (i: nat)
    requires Build(d, live, rs, ps).Ok? && x in d.tools
    ensures i < |live.tools| && live.tools[i].name == x.name && forall j | 0 <= j < |live.tools| && j != i ::
        live.tools[j].name != x.name
    ensures x.input.Some? ==> Text(live.tools[i].input) == x.input
    ensures x.output.Some? ==> Text(live.tools[i].output) == x.output
  {
    hide Build;
    BuildsExactly(d, live, rs, ps);
    var t :| t in live.tools && t.name == x.name;
    i :| 0 <= i < |live.tools| && live.tools[i] == t;
    assert Bindable(d.tools, t);
    var y :| y in d.tools && y.name == t.name && Readable(t) && SchemasAgree(y, t);
    SameDeclaration(d.tools, x, y);
  }

  lemma SameDeclaration(xs: seq<ToolDeclaration>, x: ToolDeclaration, y: ToolDeclaration)
    requires NamesDiffer(xs) && x in xs && y in xs && x.name == y.name
    ensures x == y
  {
    var i :| 0 <= i < |xs| && xs[i] == x;
    var j :| 0 <= j < |xs| && xs[j] == y;
  }

  // ---------------------------------------------------------------- refusal

  /** The refusals before any live method is looked at, in their order. */
  lemma RefusedEarly(d: Declaration, live: Live, rs: seq<Named>, ps: seq<Named>)
    ensures var r := Build(d, live, rs, ps);
      if d.transport != StreamableHttp then r == Err(Forbidden)
      else if !Connectable(d) then r == Err(Invalid)
      else if live.protocol != d.protocol then r == Err(Mismatch)
      else !DeclaresWell(d.tools) ==> r == Err(Invalid)
  {
    DeclaresExactly(d.tools);
    DeclareErrors(d.tools, map[]);
    hide BindAll, SortBy, NetworkScope, Normalize, DeclareAll, DeclaresWell;
  }

  lemma {:induction false} DeclareErrors(xs: seq<ToolDeclaration>, declared: map<string, ToolDeclaration>)
    ensures DeclareAll(xs, declared).Err? ==> DeclareAll(xs, declared).error == Invalid
  {
    if xs != [] { DeclareErrors(xs[1..], declared[xs[0].name := xs[0]]); }
  }

  /** The live methods before the i-th bind, and the i-th decides the refusal: not declared, or named before, or with
      a schema that differs from the declared one is a mismatch; what cannot be digested is invalid. */
  lemma RefusedAtMethod(d: Declaration, live: Live, rs: seq<Named>, ps: seq<Named>, i: nat)
    requires Connectable(d) && live.protocol == d.protocol && DeclaresWell(d.tools) && i < |live.tools|
    requires LiveNamesDiffer(live.tools[..i]) && forall t | t in live.tools[..i] :: Bindable(d.tools, t)
    ensures var t, r := live.tools[i], Build(d, live, rs, ps);
      if (forall x | x in d.tools :: x.name != t.name) || (exists u :: u in live.tools[..i] && u.name == t.name)
      then r == Err(Mismatch)
      else if !Readable(t) then r == Err(Invalid)
      else (forall x | x in d.tools && x.name == t.name :: !SchemasAgree(x, t)) ==> r == Err(Mismatch)
  {
    DeclaresExactly(d.tools);
    var declared := DeclareAll(d.tools, map[]).value;
    DeclaredIs(d.tools, map[]);
    ConnectsExactly(d);
    var before, t := live.tools[..i], live.tools[i];
    forall u | u in before ensures Fits(u, declared) { FitsExactly(d.tools, u); }
    LiveNamesExactly(before);
    FitsExactly(d.tools, t);
    BoundIs(before, Binding([], map[], declared));
    var b := BindAll(before, Binding([], map[], declared)).value;
    BindFrom(live.tools, i, Binding([], map[], declared));
    OneMethod(live.tools[i..], b);
    assert live.tools[i..][0] == t;
    MeaningIsReadable(t);
    assert t.name in b.left <==> t.name in declared && t.name !in LiveNames(before);
    hide BindAll, DeclareAll, MeaningOf, Fits, Bindable, DistinctBy, LiveNamesDiffer, SortBy, NetworkScope, Normalize,
         Text,
         DeclaresWell;
  }

  /** Binding goes on from where a prefix left it. */
  lemma {:induction false} BindFrom(ts: seq<LiveTool>, i: nat, b: Binding)
    requires i <= |ts| && BindAll(ts[..i], b).Ok?
    ensures BindAll(ts, b) == BindAll(ts[i..], BindAll(ts[..i], b).value)
  {
    if i > 0 {
      var t := ts[0];
      assert ts[..i][0] == t && ts[..i][1..] == ts[1..][..i - 1] && ts[1..][i - 1..] == ts[i..];
      var m := MeaningOf(t).value;
      BindFrom(ts[1..], i - 1,
               Binding(b.tools + [Tool(m, b.left[m.name].terms)], WithSchema(b.schemas, t), b.left - {m.name}));
    }
  }

  /** What the next method does. */
  lemma OneMethod(ts: seq<LiveTool>, b: Binding)
    requires ts != []
    ensures ts[0].name !in b.left ==> BindAll(ts, b) == Err(Mismatch)
    ensures ts[0].name in b.left && MeaningOf(ts[0]).Err? ==> BindAll(ts, b) == Err(Invalid)
    ensures ts[0].name in b.left && MeaningOf(ts[0]).Ok? && !SchemasAgree(b.left[ts[0].name], ts[0]) ==>
              BindAll(ts, b) == Err(Mismatch)
  {
  }

  /** A declared method that is not live is a mismatch when everything else is in order. */
  lemma RefusedForMissing(d: Declaration, live: Live, rs: seq<Named>, ps: seq<Named>, x: ToolDeclaration)
    requires Connectable(d) && live.protocol == d.protocol && DeclaresWell(d.tools) && x in d.tools
    requires LiveNamesDiffer(live.tools) && forall t | t in live.tools :: Bindable(d.tools, t) && t.name != x.name
    ensures Build(d, live, rs, ps) == Err(Mismatch)
  {
    DeclaresExactly(d.tools);
    var declared := DeclareAll(d.tools, map[]).value;
    DeclaredIs(d.tools, map[]);
    forall u | u in live.tools ensures Fits(u, declared) { FitsExactly(d.tools, u); }
    LiveNamesExactly(live.tools);
    BoundIs(live.tools, Binding([], map[], declared));
    var b := BindAll(live.tools, Binding([], map[], declared)).value;
    assert x.name in b.left;
    hide BindAll, DeclareAll, SortBy, NetworkScope, Normalize, Fits, Bindable;
  }
}
