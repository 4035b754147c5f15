/** The identity of a grant revision: the length-prefixed lines that its policy digest and
    its cache key hash. Text is a sequence of bytes, one char each; a digest is its pre-image. */
module Encoding {
  import opened Basics

  // ---------------------------------------------------------------- numbers and lines

  function Digit(d: nat): char
    requires d < 10
  {
    '0' + d as char
  }

  function Decimal(n: nat): string {
    if n < 10 then [Digit(n)] else Decimal(n / 10) + [Digit(n % 10)]
  }

  function SignedDecimal(n: int): string {
    if n < 0 then "-" + Decimal(-n) else Decimal(n)
  }

  function Line(l: string): string {
    Decimal(|l|) + ":" + l + "\n"
  }

  function Lines(lines: seq<string>): string {
    if lines == [] then "" else Line(lines[0]) + Lines(lines[1..])
  }

  function Preimage(prefix: string, lines: seq<string>): string {
    prefix + "\n" + Lines(lines)
  }

  lemma {:induction false} LinesSnoc(lines: seq<string>, l: string)
    ensures Lines(lines + [l]) == Lines(lines) + Line(l)
  {
    if lines == [] {
      assert lines + [l] == [l];
    } else {
      assert (lines + [l])[1..] == lines[1..] + [l];
      LinesSnoc(lines[1..], l);
    }
  }

  /** What digestLines writes to the hash. */
  method DigestLines(prefix: string, lines: seq<string>) returns (written: string)
    ensures written == Preimage(prefix, lines)
    ensures forall p, ls | '\n' !in p && '\n' !in prefix && Preimage(p, ls) == written :: p == prefix && ls == lines
  {
    written := prefix + "\n";
    for i := 0 to |lines|
      invariant written == prefix + "\n" + Lines(lines[..i])
    {
      assert lines[..i + 1] == lines[..i] + [lines[i]];
      LinesSnoc(lines[..i], lines[i]);
      written := written + Line(lines[i]);
    }
    assert lines[..|lines|] == lines;
    forall p, ls | '\n' !in p && '\n' !in prefix && Preimage(p, ls) == written ensures p == prefix && ls == lines {
      PreimageInjective(p, ls, prefix, lines);
    }
  }

  /** A line is its length in decimal, a colon, the text and a newline. */
  lemma LinesSample()
    ensures Decimal(10) == "10" && Preimage("p", ["ab", ""]) == "p\n2:ab\n0:\n"
  {
    var ls := ["ab", ""];
    assert Decimal(10) == Decimal(1) + [Digit(0)];
    assert ls[1..] == [""] && ls[1..][1..] == [];
    assert Lines([""]) == Line("") + "" && Line("") == "0:\n" && Line("ab") == "2:ab\n";
  }

  // ---------------------------------------------------------------- the decoder

  /** The number before the first colon and what follows it. */
  function ReadLength(s: string, acc: nat): (r: Option<(nat, string)>)
    ensures r.Some? ==> |r.value.1| < |s|
  {
    if s == "" then None
    else if s[0] == ':' then Some((acc, s[1..]))
    else if '0' <= s[0] <= '9' then ReadLength(s[1..], 10 * acc + (s[0] - '0') as nat)
    else None
  }

  function DecodeLines(s: string): Option<seq<string>>
    decreases |s|
  {
    if s == "" then Some([])
    else
      match ReadLength(s, 0)
      case None => None
      case Some((n, rest)) =>
        if n < |rest| && rest[n] == '\n' then
          match DecodeLines(rest[n + 1..])
          case None => None
          case Some(ls) => Some([rest[..n]] + ls)
        else None
  }

  lemma {:induction false} ReadsDecimal(n: nat, rest: string)
    ensures ReadLength(Decimal(n) + rest, 0) == ReadLength(rest, n)
  {
    if n < 10 {
      assert (Decimal(n) + rest)[1..] == rest;
    } else {
      var tail := [Digit(n % 10)] + rest;
      assert Decimal(n) + rest == Decimal(n / 10) + tail;
      ReadsDecimal(n / 10, tail);
      assert tail[1..] == rest;
      assert 10 * (n / 10) + n % 10 == n;
    }
  }

  /** The decoder is a left inverse of the encoding, for every list of lines. */
  lemma {:induction false} DecodesLines(lines: seq<string>)
    ensures DecodeLines(Lines(lines)) == Some(lines)
  {
    if lines != [] {
      var l, s := lines[0], Lines(lines);
      var rest := l + "\n" + Lines(lines[1..]);
      assert s == Decimal(|l|) + (":" + rest);
      ReadsDecimal(|l|, ":" + rest);
      assert (":" + rest)[1..] == rest;
      assert rest[..|l|] == l && rest[|l|] == '\n' && rest[|l| + 1..] == Lines(lines[1..]);
      DecodesLines(lines[1..]);
      assert lines == [l] + lines[1..];
    }
  }

  // ---------------------------------------------------------------- injectivity

  /** A text is cut in only one way at its first separator. */
  lemma CutOnce(a: string, c: char, x: string, b: string, y: string)
    requires c !in a && c !in b && a + [c] + x == b + [c] + y
    ensures a == b && x == y
  {
    var s, s' := a + [c] + x, b + [c] + y;
    assert s[|a|] == c && s'[|b|] == c;
    assert forall i | 0 <= i < |a| :: s[i] == a[i];
    assert forall i | 0 <= i < |b| :: s'[i] == b[i];
    assert |a| == |b|;
    assert a == s[..|a|] && b == s'[..|b|];
    assert x == s[|a| + 1..] && y == s'[|b| + 1..];
  }

  lemma SamePrefix(p: string, a: string, b: string)
    requires p + a == p + b
    ensures a == b
  {
    assert a == (p + a)[|p|..] && b == (p + b)[|p|..];
  }

  /** Equal pre-images come from equal prefixes and equal lists of lines. */
  lemma PreimageInjective(p: string, ls: seq<string>, p': string, ls': seq<string>)
    requires '\n' !in p && '\n' !in p'
    ensures Preimage(p, ls) == Preimage(p', ls') <==> p == p' && ls == ls'
  {
    if Preimage(p, ls) == Preimage(p', ls') {
      CutOnce(p, '\n', Lines(ls), p', Lines(ls'));
      DecodesLines(ls);
      DecodesLines(ls');
    }
  }

  lemma {:induction false} DecimalDigits(n: nat)
    ensures forall c | c in Decimal(n) :: '0' <= c <= '9'
  {
    if n >= 10 { DecimalDigits(n / 10); }
  }

  lemma DecimalInjective(m: nat, n: nat)
    requires Decimal(m) == Decimal(n)
    ensures m == n
  {
    ReadsDecimal(m, ":");
    ReadsDecimal(n, ":");
  }

  lemma SignedInjective(m: int, n: int)
    requires SignedDecimal(m) == SignedDecimal(n)
    ensures m == n
  {
    var i, j := if m < 0 then -m else m, if n < 0 then -n else n;
    DecimalDigits(i);
    DecimalDigits(j);
    assert Decimal(i) != "" && Decimal(j) != "";
    assert (m < 0) == (n < 0) by {
      assert SignedDecimal(m)[0] == SignedDecimal(n)[0];
      assert Decimal(i)[0] in Decimal(i) && Decimal(j)[0] in Decimal(j);
    }
    if m < 0 { SamePrefix("-", Decimal(i), Decimal(j)); }
    DecimalInjective(i, j);
  }

  // ---------------------------------------------------------------- lists joined with commas

  /** strings.Join(xs, ","). */
  function Join(xs: seq<string>): string {
    if xs == [] then "" else if |xs| == 1 then xs[0] else xs[0] + "," + Join(xs[1..])
  }

  /** A text cut at every comma. */
  function Split(s: string): (r: seq<string>)
    ensures r != []
  {
    if s == "" then [""]
    else if s[0] == ',' then [""] + Split(s[1..])
    else var rest := Split(s[1..]); [[s[0]] + rest[0]] + rest[1..]
  }

  /** The names of a list, each cut at its commas; an empty list reads as one empty name. */
  function Pieces(xs: seq<string>): seq<string> {
    if xs == [] then [""] else if |xs| == 1 then Split(xs[0]) else Split(xs[0]) + Pieces(xs[1..])
  }

  lemma {:induction false} SplitAtComma(a: string, b: string)
    ensures Split(a + "," + b) == Split(a) + Split(b)
  {
    var s := a + "," + b;
    if a == "" {
      assert s[1..] == b;
    } else {
      assert s[1..] == a[1..] + "," + b;
      SplitAtComma(a[1..], b);
    }
  }

  lemma {:induction false} SplitOfJoin(xs: seq<string>)
    ensures Split(Join(xs)) == Pieces(xs)
  {
    if |xs| > 1 {
      SplitAtComma(xs[0], Join(xs[1..]));
      SplitOfJoin(xs[1..]);
    }
  }

  lemma JoinCons(x: string, xs: seq<string>)
    requires xs != []
    ensures Join([x] + xs) == x + "," + Join(xs)
  {
    assert ([x] + xs)[1..] == xs;
  }

  lemma JoinHead(c: char, xs: seq<string>)
    requires xs != []
    ensures Join([[c] + xs[0]] + xs[1..]) == [c] + Join(xs)
  {
    assert ([[c] + xs[0]] + xs[1..])[1..] == xs[1..];
  }

  lemma {:induction false} JoinOfSplit(s: string)
    ensures Join(Split(s)) == s
  {
    if s != "" {
      JoinOfSplit(s[1..]);
      var rest := Split(s[1..]);
      assert s == [s[0]] + s[1..];
      if s[0] == ',' { JoinCons("", rest); } else { JoinHead(s[0], rest); }
    }
  }

  /** Two lists join to the same text exactly when they are cut at commas into the same names. */
  lemma JoinsAlike(xs: seq<string>, ys: seq<string>)
    ensures Join(xs) == Join(ys) <==> Pieces(xs) == Pieces(ys)
  {
    SplitOfJoin(xs);
    SplitOfJoin(ys);
    JoinOfSplit(Join(xs));
    JoinOfSplit(Join(ys));
  }

  /** Names without commas, none of them empty. */
  predicate Plain(xs: seq<string>) {
    forall x | x in xs :: x != "" && ',' !in x
  }

  lemma {:induction false} SplitPlain(s: string)
    requires ',' !in s
    ensures Split(s) == [s]
  {
    if s != "" {
      SplitPlain(s[1..]);
      assert Split(s) == [[s[0]] + s[1..]];
      assert [s[0]] + s[1..] == s;
    }
  }

  lemma PlainTail(xs: seq<string>)
    requires Plain(xs) && xs != []
    ensures Plain(xs[1..]) && ',' !in xs[0]
  {
    assert forall x | x in xs[1..] :: x in xs;
    assert xs[0] in xs;
  }

  lemma {:induction false} PiecesPlain(xs: seq<string>)
    requires Plain(xs)
    ensures Pieces(xs) == if xs == [] then [""] else xs
  {
    if xs != [] {
      PlainTail(xs);
      SplitPlain(xs[0]);
      if |xs| > 1 { PiecesPlain(xs[1..]); }
    }
  }

  lemma PlainPiecesAlike(xs: seq<string>, ys: seq<string>)
    requires Plain(xs) && Plain(ys)
    ensures Pieces(xs) == Pieces(ys) <==> xs == ys
  {
    PiecesPlain(xs);
    PiecesPlain(ys);
    assert "" !in xs && "" !in ys;
    assert "" in [""];
  }

  // ---------------------------------------------------------------- a grant's dimensions

  datatype SubjectType = TenantSubject | ProjectSubject | ActorSubject | RoleSubject {
    function Word(): (r: string)
      ensures ':' !in r
    {
      match this
      case TenantSubject => "tenant"
      case ProjectSubject => "project"
      case ActorSubject => "actor"
      case RoleSubject => "role"
    }
  }

  lemma WordInjective(a: SubjectType, b: SubjectType)
    requires a.Word() == b.Word()
    ensures a == b
  {
  }

  /** What identifies a grant revision; the expiry is its rendered instant, empty when there is none. */
  datatype Terms = Terms(
    grant: string, revision: nat, tenant: string, subjectType: SubjectType, subject: string, server: string,
    resource: string,
    issuer: string, audience: string, protocol: string, transport: string, descriptorRevision: nat,
    descriptorDigest: string,
    methods: seq<string>, resources: seq<string>, prompts: seq<string>, purpose: string, dataClass: string,
    currency: string, amount: int, expires: string)

  function SubjectText(g: Terms): string {
    g.subjectType.Word() + ":" + g.subject
  }

  function DescriptorText(g: Terms): string {
    Decimal(g.descriptorRevision) + "@" + g.descriptorDigest
  }

  function CostText(g: Terms): string {
    g.currency + ":" + SignedDecimal(g.amount)
  }

  function Labels(): (r: seq<string>)
    ensures |r| == 18
  {
    [ "grant=", "revision=", "tenant=", "subject=", "server=", "resource=", "issuer=", "audience=", "protocol=",
     "transport=",
      "descriptor=", "methods=", "resources=", "prompts=", "purpose=", "dataClass=", "costCap=", "expires=" ]
  }

  function Values(g: Terms): (r: seq<string>)
    ensures |r| == 18
  {
    [ g.grant, Decimal(g.revision), g.tenant, SubjectText(g), g.server, g.resource, g.issuer, g.audience, g.protocol,
     g.transport,
      DescriptorText(g), Join(g.methods), Join(g.resources), Join(g.prompts), g.purpose, g.dataClass, CostText(g),
      g.expires ]
  }

  function Dimensions(g: Terms): seq<string> {
    seq(18, i requires 0 <= i < 18 => Labels()[i] + Values(g)[i])
  }

  /** The dimensions in their fixed order, each behind its label. */
  lemma DimensionsAre(g: Terms)
    ensures var d := Dimensions(g);
      && |d| == 18 && d[0] == "grant=" + g.grant && d[1] == "revision=" + Decimal(g.revision)
          && d[2] == "tenant=" + g.tenant
      && d[3] == "subject=" + (g.subjectType.Word() + ":" + g.subject) && d[4] == "server=" + g.server
      && d[5] == "resource=" + g.resource && d[6] == "issuer=" + g.issuer && d[7] == "audience=" + g.audience
      && d[8] == "protocol=" + g.protocol && d[9] == "transport=" + g.transport
      && d[10] == "descriptor=" + (Decimal(g.descriptorRevision) + "@" + g.descriptorDigest)
      && d[11] == "methods=" + Join(g.methods) && d[12] == "resources=" + Join(g.resources)
      && d[13] == "prompts=" + Join(g.prompts) && d[14] == "purpose=" + g.purpose && d[15] == "dataClass=" + g.dataClass
      && d[16] == "costCap=" + (g.currency + ":" + SignedDecimal(g.amount)) && d[17] == "expires=" + g.expires
  {
    hide Decimal, SignedDecimal, Join;
    var l, v := Labels(), Values(g);
    assert forall i | 0 <= i < 18 :: Dimensions(g)[i] == l[i] + v[i];
    assert l[3] == "subject=" && l[4] == "server=" && l[5] == "resource=" && l[6] == "issuer=" && l[7] == "audience=";
    assert l[8] == "protocol=" && l[9] == "transport=" && l[10] == "descriptor=" && l[11] == "methods=";
    assert l[12] == "resources=" && l[13] == "prompts=" && l[14] == "purpose=" && l[15] == "dataClass=";
    assert l[16] == "costCap=" && l[17] == "expires=";
  }

  const POLICY_PREFIX := "mcp-grant-policy-v1"

  const CACHE_PREFIX := "mcp-grant-cache-v1"

  function PolicyDigest(g: Terms): string {
    Preimage(POLICY_PREFIX, Dimensions(g))
  }

  function CacheKey(g: Terms): string {
    Preimage(CACHE_PREFIX, Dimensions(g))
  }

  /** The two digests are over the same lines under their own headings. */
  lemma KeysAre(g: Terms)
    ensures PolicyDigest(g) == "mcp-grant-policy-v1" + "\n" + Lines(Dimensions(g))
    ensures CacheKey(g) == "mcp-grant-cache-v1" + "\n" + Lines(Dimensions(g))
  {
  }

  /** The dimensions that hold one value each. */
  predicate SameValues(g: Terms, h: Terms) {
    g == h.(methods := g.methods, resources := g.resources, prompts := g.prompts)
  }

  /** The dimensions that hold a list, after their names are cut at commas. */
  predicate SameNames(g: Terms, h: Terms) {
    Pieces(g.methods) == Pieces(h.methods) && Pieces(g.resources) == Pieces(h.resources)
        && Pieces(g.prompts) == Pieces(h.prompts)
  }

  /** Every line is read back behind its label. */
  lemma DimensionsAreValues(g: Terms, h: Terms)
    ensures Dimensions(g) == Dimensions(h) <==> Values(g) == Values(h)
  {
    hide Labels, Values;
    if Dimensions(g) == Dimensions(h) {
      forall i | 0 <= i < 18 ensures Values(g)[i] == Values(h)[i] {
        assert Dimensions(g)[i] == Dimensions(h)[i];
        SamePrefix(Labels()[i], Values(g)[i], Values(h)[i]);
      }
    }
  }

  lemma SubjectIsRead(g: Terms, h: Terms)
    ensures SubjectText(g) == SubjectText(h) <==> g.subjectType == h.subjectType && g.subject == h.subject
  {
    if SubjectText(g) == SubjectText(h) {
      CutOnce(g.subjectType.Word(), ':', g.subject, h.subjectType.Word(), h.subject);
      WordInjective(g.subjectType, h.subjectType);
    }
  }

  lemma DescriptorIsRead(g: Terms, h: Terms)
    ensures DescriptorText(g) == DescriptorText(h)
        <==> g.descriptorRevision == h.descriptorRevision && g.descriptorDigest == h.descriptorDigest
  {
    if DescriptorText(g) == DescriptorText(h) {
      DecimalDigits(g.descriptorRevision);
      DecimalDigits(h.descriptorRevision);
      CutOnce(Decimal(g.descriptorRevision), '@', g.descriptorDigest, Decimal(h.descriptorRevision),
              h.descriptorDigest);
      DecimalInjective(g.descriptorRevision, h.descriptorRevision);
    }
  }

  lemma CostIsRead(g: Terms, h: Terms)
    requires |g.currency| == |h.currency| == 3
    ensures CostText(g) == CostText(h) <==> g.currency == h.currency && g.amount == h.amount
  {
    if CostText(g) == CostText(h) {
      var x, y := CostText(g), CostText(h);
      assert x[..3] == g.currency && y[..3] == h.currency;
      assert x[4..] == SignedDecimal(g.amount) && y[4..] == SignedDecimal(h.amount);
      SignedInjective(g.amount, h.amount);
    }
  }

  lemma ValuesAlike(g: Terms, h: Terms)
    requires |g.currency| == |h.currency| == 3
    ensures Values(g) == Values(h) <==> SameValues(g, h) && SameNames(g, h)
  {
    hide SubjectText, DescriptorText, CostText, Decimal, Join, Pieces;
    var v, w := Values(g), Values(h);
    assert v == w <==> forall i | 0 <= i < 18 :: v[i] == w[i];
    JoinsAlike(g.methods, h.methods);
    JoinsAlike(g.resources, h.resources);
    JoinsAlike(g.prompts, h.prompts);
    SubjectIsRead(g, h);
    DescriptorIsRead(g, h);
    CostIsRead(g, h);
    if Decimal(g.revision) == Decimal(h.revision) { DecimalInjective(g.revision, h.revision); }
  }

  // ---------------------------------------------------------------- what the keys separate

  /** Two grant revisions share a cache key, or a policy digest, exactly when every single-valued dimension is
      equal and their lists are equal once cut at commas. */
  lemma KeysAlike(g: Terms, h: Terms)
    requires |g.currency| == |h.currency| == 3
    ensures CacheKey(g) == CacheKey(h) <==> SameValues(g, h) && SameNames(g, h)
    ensures PolicyDigest(g) == PolicyDigest(h) <==> SameValues(g, h) && SameNames(g, h)
  {
    hide Dimensions, SameValues, SameNames, Values;
    DimensionsAreValues(g, h);
    ValuesAlike(g, h);
    PreimageInjective(CACHE_PREFIX, Dimensions(g), CACHE_PREFIX, Dimensions(h));
    PreimageInjective(POLICY_PREFIX, Dimensions(g), POLICY_PREFIX, Dimensions(h));
  }

  lemma RevisionIsRead(g: Terms, h: Terms)
    requires Values(g) == Values(h)
    ensures g.grant == h.grant && g.revision == h.revision
  {
    hide SubjectText, DescriptorText, CostText, Decimal, Join;
    assert g.grant == Values(g)[0] && h.grant == Values(h)[0];
    assert Decimal(g.revision) == Values(g)[1] && Decimal(h.revision) == Values(h)[1];
    DecimalInjective(g.revision, h.revision);
  }

  /** A different grant or a different revision never shares a cache key or a policy digest. */
  lemma KeyNamesTheRevision(g: Terms, h: Terms)
    requires g.grant != h.grant || g.revision != h.revision
    ensures CacheKey(g) != CacheKey(h) && PolicyDigest(g) != PolicyDigest(h)
  {
    hide Dimensions, Values;
    PreimageInjective(CACHE_PREFIX, Dimensions(g), CACHE_PREFIX, Dimensions(h));
    PreimageInjective(POLICY_PREFIX, Dimensions(g), POLICY_PREFIX, Dimensions(h));
    DimensionsAreValues(g, h);
    if Values(g) == Values(h) { RevisionIsRead(g, h); }
  }

  /** No policy digest is a cache key, of any two grants. */
  lemma KindsAreDisjoint(g: Terms, h: Terms)
    ensures PolicyDigest(g) != CacheKey(h)
  {
    hide Dimensions;
    assert POLICY_PREFIX[10] == 'p' && CACHE_PREFIX[10] == 'c';
    PreimageInjective(POLICY_PREFIX, Dimensions(g), CACHE_PREFIX, Dimensions(h));
  }

  /** With plain names the key is the whole identity. */
  lemma PlainKeysAreWhole(g: Terms, h: Terms)
    requires |g.currency| == |h.currency| == 3
    requires Plain(g.methods) && Plain(g.resources) && Plain(g.prompts) && Plain(h.methods) && Plain(h.resources)
        && Plain(h.prompts)
    ensures CacheKey(g) == CacheKey(h) <==> g == h
  {
    KeysAlike(g, h);
    PlainPiecesAlike(g.methods, h.methods);
    PlainPiecesAlike(g.resources, h.resources);
    PlainPiecesAlike(g.prompts, h.prompts);
  }

  /** And with a comma in a name it is not: a grant of one method shares its key with a grant of two. */
  lemma CommaIsNotSeparated(g: Terms)
    requires |g.currency| == 3
    ensures CacheKey(g.(methods := ["a,b"])) == CacheKey(g.(methods := ["a", "b"]))
  {
    var g1, g2 := g.(methods := ["a,b"]), g.(methods := ["a", "b"]);
    assert Join(["a", "b"]) == "a,b" by { assert ["a", "b"][1..] == ["b"]; }
    JoinsAlike(g1.methods, g2.methods);
    KeysAlike(g1, g2);
  }
}
