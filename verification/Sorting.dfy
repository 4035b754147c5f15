/** Text in byte order, and sorting by a text key: what a sort that is not stable determines. */
module Sorting {

  /** strings.Compare is negative. */
  predicate Less(a: string, b: string) {
    b != "" && (a == "" || a[0] < b[0] || (a[0] == b[0] && Less(a[1..], b[1..])))
  }

  lemma {:induction false} LessIsTransitive(a: string, b: string, c: string)
    requires Less(a, b) && Less(b, c)
    ensures Less(a, c)
  {
    if a != "" && a[0] == b[0] == c[0] { LessIsTransitive(a[1..], b[1..], c[1..]); }
  }

  lemma {:induction false} LessIsStrict(a: string, b: string)
    ensures !(Less(a, b) && Less(b, a)) && !Less(a, a)
  {
    if a != "" { LessIsStrict(a[1..], a[1..]); }
    if a != "" && b != "" && a[0] == b[0] { LessIsStrict(a[1..], b[1..]); }
  }

  lemma {:induction false} LessIsTotal(a: string, b: string)
    ensures Less(a, b) || a == b || Less(b, a)
  {
    if a != "" && b != "" && a[0] == b[0] {
      LessIsTotal(a[1..], b[1..]);
      assert a == [a[0]] + a[1..] && b == [b[0]] + b[1..];
    }
  }

  lemma NotLessIsTransitive(a: string, b: string, c: string)
    requires !Less(b, a) && !Less(c, b)
    ensures !Less(c, a)
  {
    LessIsTotal(a, b);
    LessIsTotal(b, c);
    if Less(c, a) {
      LessIsStrict(c, a);
      if Less(a, b) { LessIsTransitive(c, a, b); }
    }
  }

  // ---------------------------------------------------------------- sorting by a key

  predicate SortedBy<T>(xs: seq<T>, key: T -> string) {
    forall i, j | 0 <= i < j < |xs| :: !Less(key(xs[j]), key(xs[i]))
  }

  /** One of the possible results of a sort: the same elements, in the order of their keys. */
  predicate IsSorting<T(==)>(xs: seq<T>, out: seq<T>, key: T -> string) {
    multiset(xs) == multiset(out) && SortedBy(out, key)
  }

  function Insert<T>(x: T, sorted: seq<T>, key: T -> string): seq<T> {
    if sorted == [] || !Less(key(sorted[0]), key(x)) then [x] + sorted else [sorted[0]] + Insert(x, sorted[1..], key)
  }

  function SortBy<T>(xs: seq<T>, key: T -> string): seq<T> {
    if xs == [] then [] else Insert(xs[0], SortBy(xs[1..], key), key)
  }

  lemma Split<T>(xs: seq<T>)
    requires xs != []
    ensures multiset(xs) == multiset{xs[0]} + multiset(xs[1..])
  {
    assert xs == [xs[0]] + xs[1..];
  }

  lemma {:induction false} InsertKeeps<T>(x: T, sorted: seq<T>, key: T -> string)
    ensures multiset(Insert(x, sorted, key)) == multiset{x} + multiset(sorted)
  {
    if sorted != [] && Less(key(sorted[0]), key(x)) {
      InsertKeeps(x, sorted[1..], key);
      Split(sorted);
    }
  }

  /** Behind an element, everything is at least as great. */
  predicate Above<T>(x: T, xs: seq<T>, key: T -> string) {
    forall i | 0 <= i < |xs| :: !Less(key(xs[i]), key(x))
  }

  lemma SortedCons<T>(x: T, xs: seq<T>, key: T -> string)
    requires SortedBy(xs, key) && Above(x, xs, key)
    ensures SortedBy([x] + xs, key)
  {
  }

  lemma SortedTail<T>(xs: seq<T>, key: T -> string)
    requires SortedBy(xs, key) && xs != []
    ensures SortedBy(xs[1..], key) && Above(xs[0], xs[1..], key)
  {
  }

  lemma AboveAll<T>(x: T, xs: seq<T>, ys: seq<T>, key: T -> string)
    requires Above(x, xs, key) && multiset(xs) == multiset(ys)
    ensures Above(x, ys, key)
  {
    forall i | 0 <= i < |ys| ensures !Less(key(ys[i]), key(x)) {
      assert ys[i] in multiset(xs);
    }
  }

  lemma {:induction false} InsertSorts<T>(x: T, sorted: seq<T>, key: T -> string)
    requires SortedBy(sorted, key)
    ensures SortedBy(Insert(x, sorted, key), key)
  {
    if sorted == [] {
    } else if Less(key(sorted[0]), key(x)) {
      var h, t := sorted[0], sorted[1..];
      SortedTail(sorted, key);
      InsertSorts(x, t, key);
      InsertKeeps(x, t, key);
      LessIsStrict(key(h), key(x));
      assert Above(h, [x] + t, key);
      AboveAll(h, [x] + t, Insert(x, t, key), key);
      SortedCons(h, Insert(x, t, key), key);
    } else {
      forall i | 0 <= i < |sorted| ensures !Less(key(sorted[i]), key(x)) {
        if i > 0 { NotLessIsTransitive(key(x), key(sorted[0]), key(sorted[i])); }
      }
      SortedCons(x, sorted, key);
    }
  }

  lemma {:induction false} SortByIsSorting<T>(xs: seq<T>, key: T -> string)
    ensures IsSorting(xs, SortBy(xs, key), key)
  {
    if xs != [] {
      SortByIsSorting(xs[1..], key);
      Split(xs);
      InsertKeeps(xs[0], SortBy(xs[1..], key), key);
      InsertSorts(xs[0], SortBy(xs[1..], key), key);
    }
  }

  // ---------------------------------------------------------------- what a sort determines

  /** Different elements have different keys. */
  predicate Separate<T(==)>(xs: seq<T>, key: T -> string) {
    forall a, b | a in xs && b in xs && key(a) == key(b) :: a == b
  }

  lemma SeparateSame<T>(xs: seq<T>, a: T, b: T, key: T -> string)
    requires Separate(xs, key) && a in xs && b in xs && key(a) == key(b)
    ensures a == b
  {
  }

  lemma SeparateWithin<T>(xs: seq<T>, ys: seq<T>, key: T -> string)
    requires Separate(xs, key) && multiset(ys) <= multiset(xs)
    ensures Separate(ys, key)
  {
    forall a, b | a in ys && b in ys && key(a) == key(b) ensures a == b {
      assert a in multiset(ys) && b in multiset(ys);
      assert a in multiset(xs) && b in multiset(xs);
    }
  }

  lemma {:induction false} SortedAlike<T>(p: seq<T>, q: seq<T>, key: T -> string)
    requires multiset(p) == multiset(q) && SortedBy(p, key) && SortedBy(q, key) && Separate(p, key)
    ensures p == q
  {
    hide SortedBy, Separate, Less;
    assert |multiset(p)| == |p| && |multiset(q)| == |q|;
    if p != [] {
      var a, b := p[0], q[0];
      FirstIsLeast(p, q, key);
      FirstIsLeast(q, p, key);
      LessIsTotal(key(a), key(b));
      assert b in multiset(p);
      SeparateSame(p, a, b, key);
      Split(p);
      Split(q);
      assert multiset(p[1..]) == multiset(p) - multiset{a};
      SortedTail(p, key);
      SortedTail(q, key);
      SeparateWithin(p, p[1..], key);
      SortedAlike(p[1..], q[1..], key);
      assert p == [a] + p[1..] && q == [b] + q[1..];
    }
  }

  lemma FirstIsLeast<T>(p: seq<T>, q: seq<T>, key: T -> string)
    requires multiset(p) == multiset(q) && SortedBy(p, key) && p != [] && q != []
    ensures !Less(key(q[0]), key(p[0]))
  {
    assert q[0] in multiset(p);
    var i :| 0 <= i < |p| && p[i] == q[0];
    if i == 0 { LessIsStrict(key(p[0]), key(p[0])); }
  }

  /** Two elements under one key can be sorted either way. */
  lemma SortedEitherWay<T>(xs: seq<T>, a: T, b: T, key: T -> string) returns (p: seq<T>, q: seq<T>)
    requires a in xs && b in xs && key(a) == key(b) && a != b
    ensures IsSorting(xs, p, key) && IsSorting(xs, q, key) && p != q
  {
    p := SortBy(xs, key);
    SortByIsSorting(xs, key);
    assert a in multiset(p) && b in multiset(p);
    var i :| 0 <= i < |p| && p[i] == a;
    var j :| 0 <= j < |p| && p[j] == b;
    q := p[i := b][j := a];
    SwapKeeps(p, i, j);
    assert q[i] == b;
    SortedByKeys(p, q, key);
  }

  lemma SortedByKeys<T>(p: seq<T>, q: seq<T>, key: T -> string)
    requires SortedBy(p, key) && |p| == |q| && forall k | 0 <= k < |p| :: key(q[k]) == key(p[k])
    ensures SortedBy(q, key)
  {
  }

  /** The result of a sort is determined if and only if different elements have different keys. */
  lemma SortIsDetermined<T>(xs: seq<T>, key: T -> string)
    ensures (forall p, q | IsSorting(xs, p, key) && IsSorting(xs, q, key) :: p == q) <==> Separate(xs, key)
  {
    if Separate(xs, key) {
      forall p, q | IsSorting(xs, p, key) && IsSorting(xs, q, key) ensures p == q {
        SeparateWithin(xs, p, key);
        SortedAlike(p, q, key);
      }
    } else {
      var a, b :| a in xs && b in xs && key(a) == key(b) && a != b;
      var p, q := SortedEitherWay(xs, a, b, key);
    }
  }

  lemma SwapKeeps<T>(p: seq<T>, i: nat, j: nat)
    requires i < |p| && j < |p|
    ensures multiset(p[i := p[j]][j := p[i]]) == multiset(p)
  {
  }

  // ---------------------------------------------------------------- a sort that sees only the keys

  function Keys<T>(xs: seq<T>, key: T -> string): seq<string> {
    seq(|xs|, i requires 0 <= i < |xs| => key(xs[i]))
  }

  function Indices(n: nat): seq<nat> {
    seq(n, i requires 0 <= i < n => i)
  }

  predicate Within(order: seq<nat>, n: nat) {
    forall k | 0 <= k < |order| :: order[k] < n
  }

  /** The positions of the keys, each once, in the order of the keys. */
  predicate IsOrder(keys: seq<string>, order: seq<nat>) {
    && multiset(order) == multiset(Indices(|keys|))
    && Within(order, |keys|)
    && forall i, j | 0 <= i < j < |order| :: !Less(keys[order[j]], keys[order[i]])
  }

  /** A deterministic sort that compares keys and nothing else. */
  ghost predicate KeySort(order: seq<string> -> seq<nat>) {
    forall keys :: IsOrder(keys, order(keys))
  }

  function KeyAt(keys: seq<string>): nat -> string {
    (i: nat) => if i < |keys| then keys[i] else ""
  }

  /** One of them, by insertion. */
  function InsertionOrder(keys: seq<string>): seq<nat> {
    SortBy(Indices(|keys|), KeyAt(keys))
  }

  lemma InsertionIsAKeySort()
    ensures KeySort(InsertionOrder)
  {
    forall keys: seq<string> ensures IsOrder(keys, InsertionOrder(keys)) {
      var order, all := InsertionOrder(keys), Indices(|keys|);
      SortByIsSorting(all, KeyAt(keys));
      forall k | 0 <= k < |order| ensures order[k] < |keys| {
        assert order[k] in multiset(all);
      }
      forall i, j | 0 <= i < j < |order| ensures !Less(keys[order[j]], keys[order[i]]) {
        assert !Less(KeyAt(keys)(order[j]), KeyAt(keys)(order[i]));
      }
    }
  }

  function Arranged<T>(xs: seq<T>, order: seq<nat>): seq<T>
    requires Within(order, |xs|)
  {
    seq(|order|, k requires 0 <= k < |order| => xs[order[k]])
  }

  /** What such a sort makes of a list. */
  ghost function Sorted<T>(xs: seq<T>, key: T -> string, order: seq<string> -> seq<nat>): seq<T>
    requires KeySort(order)
  {
    assert IsOrder(Keys(xs, key), order(Keys(xs, key)));
    Arranged(xs, order(Keys(xs, key)))
  }

  function Without<T>(q: seq<T>, k: nat): seq<T>
    requires k < |q|
  {
    q[..k] + q[k + 1..]
  }

  lemma WithoutIs<T>(q: seq<T>, k: nat)
    requires k < |q|
    ensures multiset(q) == multiset{q[k]} + multiset(Without(q, k))
  {
    assert q == q[..k] + [q[k]] + q[k + 1..];
  }

  lemma ArrangedWithout<T>(xs: seq<T>, q: seq<nat>, k: nat)
    requires Within(q, |xs|) && k < |q|
    ensures Within(Without(q, k), |xs|)
    ensures multiset(Arranged(xs, q)) == multiset{xs[q[k]]} + multiset(Arranged(xs, Without(q, k)))
  {
    assert Within(Without(q, k), |xs|);
    WithoutIs(Arranged(xs, q), k);
    assert Arranged(xs, Without(q, k)) == Without(Arranged(xs, q), k);
  }

  lemma {:induction false} ArrangedAlike<T>(xs: seq<T>, p: seq<nat>, q: seq<nat>)
    requires multiset(p) == multiset(q) && Within(p, |xs|) && Within(q, |xs|)
    ensures multiset(Arranged(xs, p)) == multiset(Arranged(xs, q))
    decreases |p|
  {
    hide Within, Without;
    assert |multiset(p)| == |p| && |multiset(q)| == |q|;
    if p != [] {
      assert p[0] in multiset(q);
      var k :| 0 <= k < |q| && q[k] == p[0];
      WithoutIs(p, 0);
      WithoutIs(q, k);
      ArrangedWithout(xs, p, 0);
      ArrangedWithout(xs, q, k);
      assert multiset(Without(p, 0)) == multiset(p) - multiset{p[0]};
      assert |multiset(Without(p, 0))| == |Without(p, 0)|;
      ArrangedAlike(xs, Without(p, 0), Without(q, k));
    } else {
      assert q == [];
    }
  }

  lemma SortedIsSorting<T>(xs: seq<T>, key: T -> string, order: seq<string> -> seq<nat>)
    requires KeySort(order)
    ensures IsSorting(xs, Sorted(xs, key, order), key)
  {
    var keys := Keys(xs, key);
    var p := order(keys);
    assert IsOrder(keys, p);
    ArrangedAlike(xs, p, Indices(|xs|));
    assert Arranged(xs, Indices(|xs|)) == xs;
    forall i, j | 0 <= i < j < |p| ensures !Less(key(Sorted(xs, key, order)[j]), key(Sorted(xs, key, order)[i])) {
      assert p[i] in p && p[j] in p;
      assert keys[p[i]] == key(xs[p[i]]) && keys[p[j]] == key(xs[p[j]]);
    }
  }

  /** Exchanging two elements under one key exchanges them in the result. */
  lemma SwapShows<T>(xs: seq<T>, i: nat, j: nat, key: T -> string, order: seq<string> -> seq<nat>)
    requires KeySort(order) && i < |xs| && j < |xs| && key(xs[i]) == key(xs[j]) && xs[i] != xs[j]
    ensures Sorted(xs[i := xs[j]][j := xs[i]], key, order) != Sorted(xs, key, order)
  {
    var ys := xs[i := xs[j]][j := xs[i]];
    assert Keys(ys, key) == Keys(xs, key);
    var p := order(Keys(xs, key));
    assert IsOrder(Keys(xs, key), p);
    assert Indices(|xs|)[i] == i;
    assert i in multiset(Indices(|xs|));
    assert i in multiset(p);
    var k :| 0 <= k < |p| && p[k] == i;
    assert Sorted(xs, key, order)[k] == xs[i] && Sorted(ys, key, order)[k] == ys[i];
  }

  /** Whatever the sort, its result is the same for every order of the input if and only if different elements have
      different keys. */
  lemma KeySortIsDetermined<T>(xs: seq<T>, key: T -> string, order: seq<string> -> seq<nat>)
    requires KeySort(order)
    ensures (forall ys: seq<T> | multiset(ys) == multiset(xs) :: Sorted(ys, key, order) == Sorted(xs, key, order))
        <==> Separate(xs, key)
  {
    hide Sorted, KeySort;
    if Separate(xs, key) {
      forall ys: seq<T> | multiset(ys) == multiset(xs) ensures Sorted(ys, key, order) == Sorted(xs, key, order) {
        SortedIsSorting(xs, key, order);
        SortedIsSorting(ys, key, order);
        SeparateWithin(xs, Sorted(xs, key, order), key);
        SortedAlike(Sorted(xs, key, order), Sorted(ys, key, order), key);
      }
    } else {
      var a, b :| a in xs && b in xs && key(a) == key(b) && a != b;
      var i :| 0 <= i < |xs| && xs[i] == a;
      var j :| 0 <= j < |xs| && xs[j] == b;
      SwapKeeps(xs, i, j);
      SwapShows(xs, i, j, key, order);
    }
  }

  // ---------------------------------------------------------------- sorted lists without repeats

  predicate StrictBy<T>(xs: seq<T>, key: T -> string) {
    forall i, j | 0 <= i < j < |xs| :: Less(key(xs[i]), key(xs[j]))
  }

  predicate DistinctBy<T>(xs: seq<T>, key: T -> string) {
    forall i, j | 0 <= i < j < |xs| :: key(xs[i]) != key(xs[j])
  }

  predicate SameMembers<T(==)>(p: seq<T>, q: seq<T>) {
    (forall x | x in p :: x in q) && (forall x | x in q :: x in p)
  }

  lemma SortMembers<T>(xs: seq<T>, key: T -> string)
    ensures SameMembers(SortBy(xs, key), xs) && |SortBy(xs, key)| == |xs|
  {
    SortByIsSorting(xs, key);
    assert |multiset(xs)| == |multiset(SortBy(xs, key))|;
    assert forall x :: x in xs <==> x in multiset(xs);
  }

  lemma InsertMembers<T>(x: T, xs: seq<T>, key: T -> string)
    ensures forall y | y in Insert(x, xs, key) :: y == x || y in xs
  {
    InsertKeeps(x, xs, key);
    forall y | y in Insert(x, xs, key) ensures y == x || y in xs {
      assert y in multiset(Insert(x, xs, key));
    }
  }

  lemma StrictCons<T>(x: T, xs: seq<T>, key: T -> string)
    requires StrictBy(xs, key) && forall y | y in xs :: Less(key(x), key(y))
    ensures StrictBy([x] + xs, key)
  {
  }

  lemma {:induction false} InsertStrict<T>(x: T, xs: seq<T>, key: T -> string)
    requires StrictBy(xs, key) && forall y | y in xs :: key(y) != key(x)
    ensures StrictBy(Insert(x, xs, key), key)
  {
    if xs != [] && Less(key(xs[0]), key(x)) {
      InsertStrict(x, xs[1..], key);
      InsertMembers(x, xs[1..], key);
      StrictCons(xs[0], Insert(x, xs[1..], key), key);
    } else {
      forall y | y in xs ensures Less(key(x), key(y)) {
        var i :| 0 <= i < |xs| && xs[i] == y;
        assert xs[0] in xs;
        LessIsTotal(key(x), key(xs[0]));
        if i > 0 { LessIsTransitive(key(x), key(xs[0]), key(xs[i])); }
      }
      StrictCons(x, xs, key);
    }
  }

  /** Elements under distinct keys sort strictly. */
  lemma {:induction false} SortIsStrict<T>(xs: seq<T>, key: T -> string)
    requires DistinctBy(xs, key)
    ensures StrictBy(SortBy(xs, key), key)
  {
    if xs != [] {
      SortIsStrict(xs[1..], key);
      SortMembers(xs[1..], key);
      InsertStrict(xs[0], SortBy(xs[1..], key), key);
    }
  }

  /** A strictly increasing list is determined by its members. */
  lemma {:induction false} StrictAlike<T>(p: seq<T>, q: seq<T>, key: T -> string)
    requires StrictBy(p, key) && StrictBy(q, key) && SameMembers(p, q)
    ensures p == q
  {
    assert q != [] ==> q[0] in p;
    if p != [] {
      assert p[0] in q;
      var a, b := p[0], q[0];
      LessIsStrict(key(a), key(b));
      assert a == b;
      forall x ensures x in p[1..] <==> x in q[1..] {
        LessIsStrict(key(a), key(a));
        assert x in p <==> x == a || x in p[1..];
        assert x in q <==> x == b || x in q[1..];
      }
      StrictAlike(p[1..], q[1..], key);
      assert p == [a] + p[1..] && q == [b] + q[1..];
    }
  }

  /** Text as its own key. */
  function Itself(s: string): string {
    s
  }

  /** slices.Compact: only the first of equal neighbours stays. */
  function Compact(xs: seq<string>): seq<string> {
    if |xs| < 2 then xs
    else if xs[0] == xs[1] then Compact(xs[1..])
    else [xs[0]] + Compact(xs[1..])
  }

  lemma {:induction false} CompactIsStrict(xs: seq<string>)
    requires SortedBy(xs, Itself)
    ensures StrictBy(Compact(xs), Itself) && SameMembers(Compact(xs), xs)
  {
    if |xs| >= 2 {
      var a, t := xs[0], xs[1..];
      SortedTail(xs, Itself);
      CompactIsStrict(t);
      assert forall x :: x in xs <==> x == a || x in t;
      if a == xs[1] {
        assert a in t;
      } else {
        forall y | y in t ensures Less(a, y) {
          var i :| 0 <= i < |t| && t[i] == y;
          LessIsTotal(a, xs[1]);
          if i > 0 {
            assert !Less(Itself(t[i]), Itself(t[0]));
            LessIsTotal(t[0], t[i]);
            if t[0] != t[i] { LessIsTransitive(a, t[0], t[i]); }
          }
        }
      }
    }
  }
}
