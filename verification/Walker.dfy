/** The check of a call's arguments: exactly one JSON object, no object in it repeats a name
    (section 4 of RFC 8259), nesting bounded. The decoder reads the lexemes of the text one
    token at a time and the walker drives it. */
module Walker {
  import opened Basics

  /** A lexeme as the scanner cuts the text; text is already unescaped, and whatever does not scan is garbage. */
  datatype Lexeme = OpenBrace | CloseBrace | OpenBracket | CloseBracket | Comma | Colon | Text(text: string)
      | Literal(literal: string) | Garbage

  // ---------------------------------------------------------------- JSON trees

  datatype Json = Leaf(lexeme: Lexeme) | Array(items: Items) | Object(members: Members)

  datatype Items = NoItem | Item(item: Json, others: Items)

  datatype Members = NoMember | Member(name: string, value: Json, others: Members)

  predicate Scalar(l: Lexeme) {
    l.Text? || l.Literal?
  }

  /** The lexemes of a tree. */
  function Render(v: Json): seq<Lexeme> {
    match v
    case Leaf(l) => [l]
    case Array(items) => [OpenBracket] + RenderItems(items, true)
    case Object(members) => [OpenBrace] + RenderMembers(members, true)
  }

  /** The rest of an array from its first or a later item on. */
  function RenderItems(items: Items, first: bool): seq<Lexeme> {
    match items
    case NoItem => [CloseBracket]
    case Item(v, others) => (if first then [] else [Comma]) + Render(v) + RenderItems(others, false)
  }

  function RenderMembers(members: Members, first: bool): seq<Lexeme> {
    match members
    case NoMember => [CloseBrace]
    case Member(name, v, others) =>
      (if first then [] else [Comma]) + [Text(name), Colon] + Render(v) + RenderMembers(others, false)
  }

  function Names(members: Members): set<string> {
    match members
    case NoMember => {}
    case Member(name, _, others) => {name} + Names(others)
  }

  /** Leaves are scalars, and no object anywhere in the tree repeats a name. */
  predicate Unrepeated(v: Json) {
    match v
    case Leaf(l) => Scalar(l)
    case Array(items) => UnrepeatedItems(items)
    case Object(members) => UnrepeatedMembers(members)
  }

  predicate UnrepeatedItems(items: Items) {
    items.Item? ==> Unrepeated(items.item) && UnrepeatedItems(items.others)
  }

  predicate UnrepeatedMembers(members: Members) {
    members.Member? ==>
      members.name !in Names(members.others) && Unrepeated(members.value) && UnrepeatedMembers(members.others)
  }

  function Max(a: nat, b: nat): nat {
    if a < b then b else a
  }

  /** The nesting of a tree: an object is a level, an array is one when it holds something. */
  function Levels(v: Json): nat {
    match v
    case Leaf(_) => 0
    case Array(NoItem) => 0
    case Array(items) => 1 + ItemLevels(items)
    case Object(members) => 1 + MemberLevels(members)
  }

  function ItemLevels(items: Items): nat {
    if items.NoItem? then 0 else Max(Levels(items.item), ItemLevels(items.others))
  }

  function MemberLevels(members: Members): nat {
    if members.NoMember? then 0 else Max(Levels(members.value), MemberLevels(members.others))
  }

  const MAX_DEPTH: nat := 64

  // ---------------------------------------------------------------- the decoder

  /** What the decoder expects next. */
  datatype Mode = TopValue | ArrayStart | ArrayValue | ArrayComma | ObjectStart | ObjectKey | ObjectColon
      | ObjectValue | ObjectComma {
    predicate ValueAllowed() {
      TopValue? || ArrayStart? || ArrayValue? || ObjectValue?
    }

    /** tokenValueEnd. */
    function AfterValue(): Mode {
      match this
      case ArrayStart => ArrayComma
      case ArrayValue => ArrayComma
      case ObjectValue => ObjectComma
      case _ => this
    }
  }

  datatype View = View(rest: seq<Lexeme>, mode: Mode, stack: seq<Mode>)

  datatype Read = Eof | Syntax | Got(token: Lexeme, next: View)

  /** The next token: separators are consumed where they belong. */
  function NextToken(v: View): Read
    decreases |v.rest|
  {
    if v.rest == [] then Eof
    else
      var l, rest := v.rest[0], v.rest[1..];
      match l
      case OpenBracket => if v.mode.ValueAllowed() then Got(l, View(rest, ArrayStart, v.stack + [v.mode])) else Syntax
      case OpenBrace => if v.mode.ValueAllowed() then Got(l, View(rest, ObjectStart, v.stack + [v.mode])) else Syntax
      case CloseBracket => if (v.mode.ArrayStart? || v.mode.ArrayComma?)
          && v.stack != [] then Got(l, Popped(v, rest)) else Syntax
      case CloseBrace => if (v.mode.ObjectStart? || v.mode.ObjectComma?)
          && v.stack != [] then Got(l, Popped(v, rest)) else Syntax
      case Colon => if v.mode.ObjectColon? then NextToken(v.(rest := rest, mode := ObjectValue)) else Syntax
      case Comma =>
        if v.mode.ArrayComma? then NextToken(v.(rest := rest, mode := ArrayValue))
        else if v.mode.ObjectComma? then NextToken(v.(rest := rest, mode := ObjectKey))
        else Syntax
      case Text(_) =>
        if v.mode.ObjectStart? || v.mode.ObjectKey? then Got(l, v.(rest := rest, mode := ObjectColon))
        else if v.mode.ValueAllowed() then Got(l, v.(rest := rest, mode := v.mode.AfterValue()))
        else Syntax
      case Literal(_) => if v.mode.ValueAllowed() then Got(l, v.(rest := rest, mode := v.mode.AfterValue())) else Syntax
      case Garbage => Syntax
  }

  function Popped(v: View, rest: seq<Lexeme>): View
    requires v.stack != []
  {
    View(rest, v.stack[|v.stack| - 1].AfterValue(), v.stack[..|v.stack| - 1])
  }

  // ---------------------------------------------------------------- what the walk reads

  /** What is left after a value at the depth, if one is accepted there. */
  function Value(s: seq<Lexeme>, depth: nat): (r: Option<seq<Lexeme>>)
    ensures r.Some? ==> |r.value| < |s|
    decreases |s|, 0
  {
    if depth > MAX_DEPTH || s == [] then None
    else if Scalar(s[0]) then Some(s[1..])
    else if s[0] == OpenBrace then ObjectRest(s[1..], {}, depth + 1, true)
    else if s[0] == OpenBracket then ArrayRest(s[1..], depth + 1, true)
    else None
  }

  /** What is left after the rest of an object, given the names it already has. */
  function ObjectRest(s: seq<Lexeme>, seen: set<string>, depth: nat, first: bool): (r: Option<seq<Lexeme>>)
    ensures r.Some? ==> |r.value| < |s|
    decreases |s|, 0
  {
    if depth > MAX_DEPTH || s == [] then None
    else if s[0] == CloseBrace then Some(s[1..])
    else if !first && s[0] != Comma then None
    else
      var m := if first then s else s[1..];
      if |m| < 2 || !m[0].Text? || m[1] != Colon || m[0].text in seen then None
      else
        match Value(m[2..], depth)
        case None => None
        case Some(rest) => ObjectRest(rest, seen + {m[0].text}, depth, false)
  }

  /** What is left after the rest of an array. */
  function ArrayRest(s: seq<Lexeme>, depth: nat, first: bool): (r: Option<seq<Lexeme>>)
    ensures r.Some? ==> |r.value| < |s|
    decreases |s|, 1
  {
    if s == [] then None
    else if s[0] == CloseBracket then Some(s[1..])
    else if !first && s[0] != Comma then None
    else
      match Value(if first then s else s[1..], depth)
      case None => None
      case Some(rest) => ArrayRest(rest, depth, false)
  }

  /** The whole text is accepted. */
  predicate Accepted(s: seq<Lexeme>) {
    s != [] && s[0] == OpenBrace && ObjectRest(s[1..], {}, 1, true) == Some([])
  }

  // ---------------------------------------------------------------- the walker

  class Decoder {
    const input: seq<Lexeme>
    var pos: nat
    var mode: Mode
    var stack: seq<Mode>

    ghost predicate Valid()
      reads this
    {
      pos <= |input|
    }

    ghost function State(): View
      requires Valid()
      reads this
    {
      View(input[pos..], mode, stack)
    }

    constructor (input: seq<Lexeme>)
      ensures Valid() && State() == View(input, TopValue, []) && this.input == input
    {
      this.input := input;
      pos, mode, stack := 0, TopValue, [];
    }

    method Token() returns (r: Option<Lexeme>, eof: bool)
      requires Valid()
      modifies this
      ensures Valid()
      ensures eof <==> NextToken(old(State())).Eof?
      ensures r.Some? <==> NextToken(old(State())).Got?
      ensures r.Some? ==> NextToken(old(State())) == Got(r.value, State()) && pos > old(pos)
    {
      r, eof := None, false;
      while pos < |input| && (input[pos] == Comma || input[pos] == Colon)
        invariant Valid() && pos >= old(pos) && NextToken(State()) == NextToken(old(State()))
        decreases |input| - pos
      {
        assert input[pos..][1..] == input[pos + 1..];
        if input[pos] == Colon && mode.ObjectColon? { mode := ObjectValue; }
        else if input[pos] == Comma && mode.ArrayComma? { mode := ArrayValue; }
        else if input[pos] == Comma && mode.ObjectComma? { mode := ObjectKey; }
        else { return; }
        pos := pos + 1;
      }
      if pos == |input| { return None, true; }
      r := Take();
    }

    /** The token a lexeme is, where it is allowed. */
    method Take() returns (r: Option<Lexeme>)
      requires Valid() && pos < |input| && input[pos] != Comma && input[pos] != Colon
      modifies this
      ensures Valid() && pos >= old(pos)
      ensures var read := NextToken(old(State())); if read.Got? then r == Some(read.token) && State() == read.next
          && pos > old(pos) else r == None && read.Syntax?
    {
      r := None;
      var l := input[pos];
      assert input[pos..][1..] == input[pos + 1..];
      if l == OpenBracket || l == OpenBrace {
        if !mode.ValueAllowed() { return; }
        stack, mode := stack + [mode], if l == OpenBracket then ArrayStart else ObjectStart;
      } else if l == CloseBracket || l == CloseBrace {
        var fits := if l == CloseBracket then mode.ArrayStart? || mode.ArrayComma?
                    else mode.ObjectStart? || mode.ObjectComma?;
        if !fits || stack == [] { return; }
        mode, stack := stack[|stack| - 1].AfterValue(), stack[..|stack| - 1];
      } else if l.Text? && (mode.ObjectStart? || mode.ObjectKey?) {
        mode := ObjectColon;
      } else if l != Garbage && mode.ValueAllowed() {
        mode := mode.AfterValue();
      } else {
        return;
      }
      pos := pos + 1;
      r := Some(l);
    }

    method More() returns (more: bool)
      requires Valid()
      ensures more <==> pos < |input| && input[pos] != CloseBracket && input[pos] != CloseBrace
    {
      more := pos < |input| && input[pos] != CloseBracket && input[pos] != CloseBrace;
    }

    /** walkObject, behind the opening brace. */
    method WalkObject(depth: nat) returns (ok: bool)
      requires Valid() && mode == ObjectStart && stack != []
      modifies this
      ensures Valid()
      ensures var left := ObjectRest(old(input[pos..]), {}, depth, true);
        && (ok <==> left.Some?)
        && (ok ==> pos > old(pos) && State() == Popped(old(State()), left.value))
      decreases |input| - pos
    {
      hide ObjectRest, Value, NextToken;
      if depth > MAX_DEPTH { TooDeep(input[pos..], {}, depth); return false; }
      var seen: set<string> := {};
      ghost var left := ObjectRest(input[pos..], {}, depth, true);
      var more := More();
      while more
        invariant Valid() && pos >= old(pos) && stack == old(stack) && (mode == ObjectStart || mode == ObjectComma)
        invariant more <==> pos < |input| && input[pos] != CloseBracket && input[pos] != CloseBrace
        invariant left == ObjectRest(input[pos..], seen, depth, mode == ObjectStart)
        decreases |input| - pos
      {
        MemberStep(State(), seen, depth);
        var tok, _ := Token();
        if tok.None? { return false; }
        var name := tok.value.text;
        if name in seen { return false; }
        seen := seen + {name};
        var good := WalkValue(depth);
        if !good { return false; }
        more := More();
      }
      ObjectEnd(State(), seen, depth);
      var tok, _ := Token();
      ok := tok.Some?;
    }

    /** walkValue, where a value is expected. */
    method WalkValue(depth: nat) returns (ok: bool)
      requires Valid() && (mode == ArrayStart || mode == ArrayComma || mode == ObjectColon)
      requires mode != ObjectColon ==> pos < |input| && input[pos] != CloseBracket
      modifies this
      ensures Valid()
      ensures var left := ValueRest(old(State()), depth);
        && (ok <==> left.Some?)
        && (ok ==> pos > old(pos) && State() == View(left.value,
                                                     if old(mode) == ObjectColon then ObjectComma
                                                       else ArrayComma, old(stack)))
      decreases |input| - pos, 0
    {
      hide ObjectRest, ArrayRest, ValueRest, NextToken, Value, Scalar;
      ValueStep(State(), depth);
      if depth > MAX_DEPTH { return false; }
      var tok, _ := Token();
      if tok.None? { return false; }
      if tok.value == OpenBrace {
        ok := WalkObject(depth + 1);
      } else if tok.value == OpenBracket {
        ok := WalkArray(depth + 1);
      } else {
        ok := true;
      }
    }

    /** The array arm of walkValue, behind the opening bracket. */
    method WalkArray(depth: nat) returns (ok: bool)
      requires Valid() && mode == ArrayStart && stack != []
      modifies this
      ensures Valid()
      ensures var left := ArrayRest(old(input[pos..]), depth, true);
        && (ok <==> left.Some?)
        && (ok ==> pos > old(pos) && State() == Popped(old(State()), left.value))
      decreases |input| - pos, 1
    {
      hide ArrayRest, ValueRest, NextToken, Value;
      ghost var left := ArrayRest(input[pos..], depth, true);
      var more := More();
      while more
        invariant Valid() && pos >= old(pos) && stack == old(stack) && (mode == ArrayStart || mode == ArrayComma)
        invariant more <==> pos < |input| && input[pos] != CloseBracket && input[pos] != CloseBrace
        invariant left == ArrayRest(input[pos..], depth, mode == ArrayStart)
        decreases |input| - pos
      {
        ItemStep(State(), depth);
        var good := WalkValue(depth);
        if !good { return false; }
        more := More();
      }
      ArrayEnd(State(), depth);
      var closing, _ := Token();
      ok := closing.Some?;
    }
  }

  // ---------------------------------------------------------------- one step of the walk

  /** What is left after the separator that belongs here and the value behind it. */
  function ValueRest(v: View, depth: nat): Option<seq<Lexeme>> {
    if v.rest == [] then None
    else if v.mode == ArrayStart then Value(v.rest, depth)
    else if v.rest[0] == (if v.mode == ArrayComma then Comma else Colon) then Value(v.rest[1..], depth)
    else None
  }

  lemma TooDeep(s: seq<Lexeme>, seen: set<string>, depth: nat)
    requires depth > MAX_DEPTH
    ensures ObjectRest(s, seen, depth, true).None?
  {
  }

  /** At a member the token is its name, and the object goes on behind its value. */
  lemma MemberStep(v: View, seen: set<string>, depth: nat)
    requires (v.mode == ObjectStart || v.mode == ObjectComma) && v.rest != [] && v.rest[0] != CloseBrace
        && depth <= MAX_DEPTH
    ensures var left, read := ObjectRest(v.rest, seen, depth, v.mode == ObjectStart), NextToken(v);
      if read.Got? then
        && read.token.Text? && read.next == View(read.next.rest, ObjectColon, v.stack)
        && var after := ValueRest(read.next, depth);
           left == if read.token.text in seen
               || after.None? then None else ObjectRest(after.value, seen + {read.token.text}, depth, false)
      else left.None?
  {
    if v.mode == ObjectComma && v.rest[0] == Comma {
      var w := v.(rest := v.rest[1..], mode := ObjectKey);
      assert NextToken(v) == NextToken(w);
    }
    var m := if v.mode == ObjectStart then v.rest else v.rest[1..];
    assert |m| >= 2 ==> m[1..][1..] == m[2..];
  }

  /** Without a further member the token is the closing brace. */
  lemma ObjectEnd(v: View, seen: set<string>, depth: nat)
    requires (v.mode == ObjectStart || v.mode == ObjectComma) && depth <= MAX_DEPTH && v.stack != []
    requires v.rest != [] ==> v.rest[0] == CloseBrace || v.rest[0] == CloseBracket
    ensures var left, read := ObjectRest(v.rest, seen, depth, v.mode == ObjectStart), NextToken(v);
      && (read.Got? <==> left.Some?)
      && (read.Got? ==> read.next == Popped(v, left.value))
  {
  }

  /** A token read where a value may stand, against what is left behind the value. */
  predicate ReadsAs(read: Read, left: Option<seq<Lexeme>>, after: Mode, stack: seq<Mode>, depth: nat) {
    if !read.Got? then left.None?
    else if read.token == OpenBrace || read.token == OpenBracket then
      && read.next.mode == (if read.token == OpenBrace then ObjectStart else ArrayStart)
      && read.next.stack != [] && Popped(read.next, []) == View([], after, stack)
      && left == if read.token == OpenBrace then ObjectRest(read.next.rest, {}, depth + 1, true)
        else ArrayRest(read.next.rest, depth + 1, true)
    else left == Some(read.next.rest) && read.next == View(read.next.rest, after, stack)
  }

  /** Where a value is allowed the token is a scalar or an opening. */
  lemma ValueAt(v: View, depth: nat)
    requires v.mode.ValueAllowed() && depth <= MAX_DEPTH
    requires v.mode == ArrayStart ==> v.rest != [] && v.rest[0] != CloseBracket
    ensures ReadsAs(NextToken(v), Value(v.rest, depth), v.mode.AfterValue(), v.stack, depth)
  {
    hide ObjectRest, ArrayRest;
    if v.rest != [] && (v.rest[0] == OpenBrace || v.rest[0] == OpenBracket) {
      assert (v.stack + [v.mode])[..|v.stack|] == v.stack;
    }
  }

  /** At a value, behind the separator that belongs before it. */
  lemma ValueStep(v: View, depth: nat)
    requires v.mode == ArrayStart || v.mode == ArrayComma || v.mode == ObjectColon
    requires v.mode != ObjectColon ==> v.rest != [] && v.rest[0] != CloseBracket
    ensures depth > MAX_DEPTH ==> ValueRest(v, depth).None?
    ensures depth <= MAX_DEPTH ==>
          ReadsAs(NextToken(v), ValueRest(v, depth), if v.mode == ObjectColon then ObjectComma else ArrayComma,
                  v.stack, depth)
  {
    if depth > MAX_DEPTH {
    } else if v.mode == ArrayStart {
      hide ReadsAs, Value, NextToken;
      ValueAt(v, depth);
    } else if v.rest != [] && v.rest[0] == (if v.mode == ArrayComma then Comma else Colon) {
      var w := v.(rest := v.rest[1..], mode := if v.mode == ObjectColon then ObjectValue else ArrayValue);
      assert NextToken(v) == NextToken(w);
      hide ReadsAs, Value, NextToken;
      ValueAt(w, depth);
    }
  }

  /** At an item the array goes on behind it. */
  lemma ItemStep(v: View, depth: nat)
    requires (v.mode == ArrayStart || v.mode == ArrayComma) && v.rest != [] && v.rest[0] != CloseBracket
    ensures var left, after := ArrayRest(v.rest, depth, v.mode == ArrayStart), ValueRest(v, depth);
      left == if after.None? then None else ArrayRest(after.value, depth, false)
  {
  }

  /** Without a further item the token is the closing bracket. */
  lemma ArrayEnd(v: View, depth: nat)
    requires (v.mode == ArrayStart || v.mode == ArrayComma) && v.stack != []
    requires v.rest != [] ==> v.rest[0] == CloseBrace || v.rest[0] == CloseBracket
    ensures var left, read := ArrayRest(v.rest, depth, v.mode == ArrayStart), NextToken(v);
      && (read.Got? <==> left.Some?)
      && (read.Got? ==> read.next == Popped(v, left.value))
  {
  }

  // ---------------------------------------------------------------- what is accepted

  /** The tree of an acceptable text: an object, without repeated names, nested at most 64 deep. */
  ghost predicate Acceptable(v: Json) {
    v.Object? && Unrepeated(v) && Levels(v) <= 64
  }

  /** checkObject accepts the lexemes of acceptable trees and nothing else; in particular it has then consumed
      everything. */
  method CheckObject(input: seq<Lexeme>) returns (ok: bool)
    ensures ok <==> exists v :: Acceptable(v) && Render(v) == input
  {
    hide ObjectRest, Acceptable, Render, NextToken;
    AcceptedExactly(input);
    TopTokens(input);
    var dec := new Decoder(input);
    var tok, _ := dec.Token();
    if tok != Some(OpenBrace) { return false; }
    ok := dec.WalkObject(1);
    if !ok { return; }
    TopTokens(dec.input[dec.pos..]);
    var _, eof := dec.Token();
    ok := eof;
  }

  /** At the top a text opens with its first lexeme and ends where nothing is left. */
  lemma TopTokens(s: seq<Lexeme>)
    ensures var read := NextToken(View(s, TopValue, []));
      && (read.Eof? <==> s == [])
      && (s != [] && s[0] == OpenBrace ==> read == Got(OpenBrace, View(s[1..], ObjectStart, [TopValue])))
      && (read.Got? && read.token == OpenBrace ==> s[0] == OpenBrace)
  {
  }

  /** Reading back the lexemes of a value leaves what follows it. */
  lemma {:induction false} ReadsValue(v: Json, rest: seq<Lexeme>, depth: nat)
    requires Unrepeated(v) && depth + Levels(v) <= MAX_DEPTH
    ensures Value(Render(v) + rest, depth) == Some(rest)
    decreases v
  {
    var s := Render(v) + rest;
    match v
    case Leaf(l) =>
      assert s[1..] == rest;
    case Array(items) =>
      assert s[1..] == RenderItems(items, true) + rest;
      ReadsItems(items, rest, depth + 1, true);
    case Object(members) =>
      assert s[1..] == RenderMembers(members, true) + rest;
      ReadsMembers(members, rest, {}, depth + 1, true);
  }

  /** The first lexeme of a value closes nothing. */
  lemma StartsValue(v: Json)
    requires Unrepeated(v)
    ensures Render(v) != [] && Render(v)[0] != CloseBracket && Render(v)[0] != CloseBrace
  {
  }

  lemma {:induction false} ReadsItems(items: Items, rest: seq<Lexeme>, depth: nat, first: bool)
    requires UnrepeatedItems(items) && (items.Item? ==> depth + ItemLevels(items) <= MAX_DEPTH)
    ensures ArrayRest(RenderItems(items, first) + rest, depth, first) == Some(rest)
    decreases items
  {
    hide Value, Render, Levels, Unrepeated, ObjectRest;
    var s := RenderItems(items, first) + rest;
    match items
    case NoItem =>
      assert s[1..] == rest;
    case Item(v, others) =>
      var left := RenderItems(others, false) + rest;
      StartsValue(v);
      assert s == (if first then [] else [Comma]) + (Render(v) + left);
      assert (if first then s else s[1..]) == Render(v) + left;
      ReadsValue(v, left, depth);
      ReadsItems(others, rest, depth, false);
  }

  /** A member and what follows it, behind its separator. */
  lemma MemberLexemes(name: string, after: seq<Lexeme>, first: bool, s: seq<Lexeme>) returns (m: seq<Lexeme>)
    requires s == (if first then [] else [Comma]) + ([Text(name), Colon] + after)
    ensures s != [] && s[0] != CloseBrace && (!first ==> s[0] == Comma) && m == (if first then s else s[1..])
    ensures |m| >= 2 && m[0] == Text(name) && m[1] == Colon && m[2..] == after
  {
    m := if first then s else s[1..];
  }

  lemma {:induction false} ReadsMembers(members: Members, rest: seq<Lexeme>, seen: set<string>, depth: nat, first: bool)
    requires UnrepeatedMembers(members) && seen !! Names(members) && depth + MemberLevels(members) <= MAX_DEPTH
    ensures ObjectRest(RenderMembers(members, first) + rest, seen, depth, first) == Some(rest)
    decreases members
  {
    hide Value, Render, Levels, Unrepeated, ArrayRest;
    var s := RenderMembers(members, first) + rest;
    match members
    case NoMember =>
      assert s[1..] == rest;
    case Member(name, v, others) =>
      var left := RenderMembers(others, false) + rest;
      var m := MemberLexemes(name, Render(v) + left, first, s) by {
        assert s == (if first then [] else [Comma]) + ([Text(name), Colon] + (Render(v) + left));
      }
      ReadsValue(v, left, depth);
      ReadsMembers(others, rest, seen + {name}, depth, false);
  }

  /** What is read as a value is the lexemes of an acceptable one. */
  lemma {:induction false} ValueIsRendered(s: seq<Lexeme>, depth: nat) returns (v: Json)
    requires Value(s, depth).Some?
    ensures Unrepeated(v) && depth + Levels(v) <= MAX_DEPTH && s == Render(v) + Value(s, depth).value
    decreases |s|, 0
  {
    if Scalar(s[0]) {
      v := Leaf(s[0]);
    } else if s[0] == OpenBrace {
      var members := MembersAreRendered(s[1..], {}, depth + 1, true);
      v := Object(members);
      assert s == [s[0]] + s[1..];
    } else {
      var items := ItemsAreRendered(s[1..], depth + 1, true);
      v := Array(items);
      assert s == [s[0]] + s[1..];
    }
  }

  lemma {:induction false} ItemsAreRendered(s: seq<Lexeme>, depth: nat, first: bool) returns (items: Items)
    requires ArrayRest(s, depth, first).Some?
    ensures UnrepeatedItems(items) && (items.Item? ==> depth + ItemLevels(items) <= MAX_DEPTH)
    ensures s == RenderItems(items, first) + ArrayRest(s, depth, first).value
    decreases |s|, 1
  {
    hide Value, Render, Levels, Unrepeated, ObjectRest;
    if s[0] == CloseBracket {
      items := NoItem;
    } else {
      var m := if first then s else s[1..];
      var rest := Value(m, depth).value;
      var v := ValueIsRendered(m, depth);
      var others := ItemsAreRendered(rest, depth, false);
      items := Item(v, others);
      assert s == (if first then [] else [Comma]) + m;
    }
  }

  lemma MembersJoin(s: seq<Lexeme>, m: seq<Lexeme>, name: string, value: seq<Lexeme>, others: seq<Lexeme>,
                    left: seq<Lexeme>, first: bool)
    requires |m| >= 2 && m[0] == Text(name) && m[1] == Colon && m[2..] == value + (others + left)
    requires s != [] && m == (if first then s else s[1..]) && (!first ==> s[0] == Comma)
    ensures s == (if first then [] else [Comma]) + [Text(name), Colon] + value + others + left
  {
    assert m == [Text(name), Colon] + m[2..];
    assert s == (if first then [] else [Comma]) + m;
  }

  lemma {:induction false} MembersAreRendered(s: seq<Lexeme>, seen: set<string>, depth: nat,
                                              first: bool) returns (members: Members)
    requires ObjectRest(s, seen, depth, first).Some?
    ensures UnrepeatedMembers(members) && seen !! Names(members) && depth + MemberLevels(members) <= MAX_DEPTH
    ensures s == RenderMembers(members, first) + ObjectRest(s, seen, depth, first).value
    decreases |s|, 1
  {
    hide Value, Render, Levels, Unrepeated, ArrayRest;
    if s[0] == CloseBrace {
      members := NoMember;
    } else {
      var m := if first then s else s[1..];
      var name, rest := m[0].text, Value(m[2..], depth).value;
      var v := ValueIsRendered(m[2..], depth);
      var others := MembersAreRendered(rest, seen + {name}, depth, false);
      members := Member(name, v, others);
      MembersJoin(s, m, name, Render(v), RenderMembers(others, false), ObjectRest(s, seen, depth, first).value, first);
    }
  }

  /** The walk accepts a text if and only if it is the lexemes of an acceptable tree. */
  lemma AcceptedExactly(s: seq<Lexeme>)
    ensures Accepted(s) <==> exists v :: Acceptable(v) && Render(v) == s
  {
    if Accepted(s) {
      var members := MembersAreRendered(s[1..], {}, 1, true);
      var v := Object(members);
      assert s == [s[0]] + s[1..];
      assert Acceptable(v) && Render(v) == s;
    }
    if v :| Acceptable(v) && Render(v) == s {
      ReadsMembers(v.members, [], {}, 1, true);
      assert s[1..] == RenderMembers(v.members, true) + [];
    }
  }
}
