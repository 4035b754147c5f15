/** The background pass over the open calls: keyset-ordered pages, each query seeing the
    table as it is at that moment, while visited rows are re-stamped and others write. */
module Paging {
  import opened Basics
  import opened Rows
  import Protocol

  /** The keyset order: (updated_at, call_id). */
  datatype Key = Key(at: Time, call: Id)

  predicate Before(a: Key, b: Key) {
    a.at < b.at || (a.at == b.at && a.call < b.call)
  }

  /** The table at one query. */
  datatype Snapshot = Snapshot(now: Time, calls: map<Id, Call>)

  datatype Ages = Ages(age: Time, sentAge: Time)

  function KeyOf(v: Snapshot, c: Id): Key
    requires c in v.calls
  {
    Key(v.calls[c].updatedAt, c)
  }

  predicate After(k: Key, cursor: Option<Key>) {
    cursor.None? || Before(cursor.value, k)
  }

  predicate Listed(v: Snapshot, o: Ages, c: Id) {
    c in v.calls && Protocol.Eligible(v.calls[c], v.now, o.age, o.sentAge)
  }

  /** The rows the listing selects after the cursor. */
  function Selected(v: Snapshot, o: Ages, cursor: Option<Key>): set<Key> {
    set c | c in v.calls && Listed(v, o, c) && After(KeyOf(v, c), cursor) :: KeyOf(v, c)
  }

  lemma {:induction false} HasLeast(keys: set<Key>) returns (least: Key)
    requires keys != {}
    ensures least in keys && forall k | k in keys && k != least :: Before(least, k)
    decreases keys
  {
    least :| least in keys;
    var others := keys - {least};
    var first := least;
    assert forall k | k in keys :: k == first || k in others;
    if others != {} {
      var m := HasLeast(others);
      if Before(m, least) { least := m; }
    }
  }

  function Least(keys: set<Key>): (least: Key)
    requires keys != {}
    ensures least in keys && forall k | k in keys && k != least :: Before(least, k)
  {
    assert exists k :: k in keys && forall k' | k' in keys && k' != k :: Before(k, k') by {
      var _ := HasLeast(keys);
    }
    var k :| k in keys && forall k' | k' in keys && k' != k :: Before(k, k');
    k
  }

  /** ORDER BY updated_at, call_id LIMIT n. */
  function Page(keys: set<Key>, limit: nat): seq<Key> {
    if keys == {} || limit == 0 then []
    else var m := Least(keys); [m] + Page(keys - {m}, limit - 1)
  }

  predicate Increasing(keys: seq<Key>) {
    forall i, j | 0 <= i < j < |keys| :: Before(keys[i], keys[j])
  }

  /** A page is in order, holds only selected keys, everything left out is behind all of it, and nothing is left out
      unless the page is full. */
  lemma {:induction false} PageIs(keys: set<Key>, limit: nat)
    ensures var p := Page(keys, limit);
      && Increasing(p) && |p| <= limit
      && (forall k | k in p :: k in keys)
      && (forall k, l | k in keys && k !in p && l in p :: Before(l, k))
      && (|p| < limit ==> forall k | k in keys :: k in p)
  {
    if keys != {} && limit > 0 {
      var m := Least(keys);
      PageIs(keys - {m}, limit - 1);
      var rest := Page(keys - {m}, limit - 1);
      assert forall k | k in rest :: Before(m, k);
      forall k | k in keys && k != m && |[m] + rest| < limit ensures k in [m] + rest {
        assert k in keys - {m};
      }
    }
  }

  // ---------------------------------------------------------------- the pass

  /** The pages of a pass, and whether it ran to its end. */
  datatype Outcome = Outcome(pages: seq<seq<Key>>, completed: bool)

  /** The pass whose successive queries see the snapshots; it is cut short when they end. */
  function Pass(views: seq<Snapshot>, o: Ages, batch: nat, cursor: Option<Key>): Outcome {
    if views == [] then Outcome([], false)
    else
      var page := Page(Selected(views[0], o, cursor), batch);
      if page == [] || |page| < batch then Outcome([page], true)
      else
        var r := Pass(views[1..], o, batch, Some(page[|page| - 1]));
        Outcome([page] + r.pages, r.completed)
  }

  function Flat(pages: seq<seq<Key>>): seq<Key> {
    if pages == [] then [] else pages[0] + Flat(pages[1..])
  }

  /** The calls of a page. */
  function Calls(page: seq<Key>): set<Id> {
    set k | k in page :: k.call
  }

  // ---------------------------------------------------------------- coverage

  /** No one writes the row before the pass visits it. */
  ghost predicate Untouched(views: seq<Snapshot>, pages: seq<seq<Key>>, c: Id, row: Call) {
    forall k | 0 <= k < |views| && k < |pages| && (forall j | 0 <= j < k :: c !in Calls(pages[j])) ::
      c in views[k].calls && views[k].calls[c] == row
  }

  ghost predicate ClockRuns(views: seq<Snapshot>) {
    forall i, j | 0 <= i <= j < |views| :: views[i].now <= views[j].now
  }

  lemma EligibleStays(row: Call, now: Time, later: Time, o: Ages)
    requires Protocol.Eligible(row, now, o.age, o.sentAge) && now <= later
    ensures Protocol.Eligible(row, later, o.age, o.sentAge)
  {
  }

  lemma OnPage(page: seq<Key>, k: Key)
    requires k in page
    ensures k.call in Calls(page)
  {
  }

  lemma PagesOf(views: seq<Snapshot>, o: Ages, batch: nat, cursor: Option<Key>)
    requires views != []
    ensures var pages, page := Pass(views, o, batch, cursor).pages, Page(Selected(views[0], o, cursor), batch);
      && |pages| > 0 && pages[0] == page
      && (page != [] && |page| >= batch ==>
            && pages[1..] == Pass(views[1..], o, batch, Some(page[|page| - 1])).pages
            && Pass(views, o, batch, cursor).completed == Pass(views[1..], o, batch, Some(page[|page| - 1])).completed)
      && (page == [] || |page| < batch ==> pages == [page] && Pass(views, o, batch, cursor).completed)
  {
  }

  /** A completed pass visits every call that is eligible at its start and that no one else writes before its visit,
      whatever happens to every other row and to the rows already visited. */
  lemma {:induction false} EveryEligibleCallIsVisited(views: seq<Snapshot>, o: Ages, batch: nat, cursor: Option<Key>,
                                                      c: Id)
    requires batch >= 1 && views != [] && ClockRuns(views) && Pass(views, o, batch, cursor).completed
    requires Listed(views[0], o, c) && After(KeyOf(views[0], c), cursor)
    requires Untouched(views, Pass(views, o, batch, cursor).pages, c, views[0].calls[c])
    ensures var pages := Pass(views, o, batch, cursor).pages; exists j :: 0 <= j < |pages| && c in Calls(pages[j])
    decreases |views|
  {
    hide Pass, Page;
    var pages, keys := Pass(views, o, batch, cursor).pages, Selected(views[0], o, cursor);
    var page, key, row := Page(keys, batch), KeyOf(views[0], c), views[0].calls[c];
    PagesOf(views, o, batch, cursor);
    PageIs(keys, batch);
    assert key in keys;
    if key in page {
      OnPage(page, key);
      assert c in Calls(pages[0]);
    } else if c in Calls(pages[0]) {
    } else {
      var last, rest := page[|page| - 1], views[1..];
      assert Before(last, key);
      Continues(views, o, batch, last, pages, c, row);
      EveryEligibleCallIsVisited(rest, o, batch, Some(last), c);
      var j :| 0 <= j < |pages[1..]| && c in Calls(pages[1..][j]);
      assert c in Calls(pages[j + 1]);
    }
  }

  /** The rest of the pass starts from the same row. */
  lemma Continues(views: seq<Snapshot>, o: Ages, batch: nat, last: Key, pages: seq<seq<Key>>, c: Id, row: Call)
    requires views != [] && pages != [] && pages[1..] == Pass(views[1..], o, batch, Some(last)).pages
    requires Pass(views[1..], o, batch, Some(last)).completed
    requires ClockRuns(views) && Untouched(views, pages, c, row) && c !in Calls(pages[0])
    requires c in views[0].calls && views[0].calls[c] == row && Protocol.Eligible(row, views[0].now, o.age, o.sentAge)
    ensures var rest := views[1..];
      && rest != [] && ClockRuns(rest) && Listed(rest[0], o, c) && rest[0].calls[c] == row
          && Untouched(rest, pages[1..], c, row)
  {
    hide Calls, Page, Protocol.Eligible;
    var rest := views[1..];
    assert rest != [];
    PagesOf(rest, o, batch, Some(last));
    assert |pages| > 1 && c in views[1].calls && views[1].calls[c] == row;
    EligibleStays(row, views[0].now, views[1].now, o);
    forall k | 0 <= k < |rest| && k < |pages[1..]| && (forall j | 0 <= j < k :: c !in Calls(pages[1..][j]))
      ensures c in rest[k].calls && rest[k].calls[c] == row
    {
      assert forall j | 0 <= j < k + 1 :: c !in Calls(pages[j]) by {
        forall j | 0 <= j < k + 1 ensures c !in Calls(pages[j]) { if j > 0 { assert pages[j] == pages[1..][j - 1]; } }
      }
      assert rest[k] == views[k + 1];
    }
  }

  // ---------------------------------------------------------------- order

  /** In any environment the visited keys strictly increase: a call is visited again only if it was re-stamped. */
  lemma {:induction false} VisitsAreOrdered(views: seq<Snapshot>, o: Ages, batch: nat, cursor: Option<Key>)
    ensures var keys := Flat(Pass(views, o, batch, cursor).pages);
      Increasing(keys) && forall k | k in keys :: After(k, cursor)
    decreases |views|
  {
    hide Page, Selected, Pass;
    if views == [] {
      assert Pass(views, o, batch, cursor).pages == [] by { NoViews(o, batch, cursor); }
    } else {
      var pages, page := Pass(views, o, batch, cursor).pages, Page(Selected(views[0], o, cursor), batch);
      PagesOf(views, o, batch, cursor);
      PageIs(Selected(views[0], o, cursor), batch);
      SelectedIs(views[0], o, cursor);
      if page == [] || |page| < batch {
        assert Flat(pages) == page by { assert Flat(pages[1..]) == []; }
      } else {
        var last := page[|page| - 1];
        VisitsAreOrdered(views[1..], o, batch, Some(last));
        Chained(page, Flat(pages[1..]), cursor);
      }
    }
  }

  lemma NoViews(o: Ages, batch: nat, cursor: Option<Key>)
    ensures Pass([], o, batch, cursor) == Outcome([], false)
  {
  }

  lemma SelectedIs(v: Snapshot, o: Ages, cursor: Option<Key>)
    ensures forall k | k in Selected(v, o, cursor) :: After(k, cursor) && Listed(v, o, k.call) && k == KeyOf(v, k.call)
  {
  }

  lemma Chained(page: seq<Key>, rest: seq<Key>, cursor: Option<Key>)
    requires page != [] && Increasing(page) && Increasing(rest)
    requires forall k | k in page :: After(k, cursor)
    requires forall k | k in rest :: Before(page[|page| - 1], k)
    ensures Increasing(page + rest) && forall k | k in page + rest :: After(k, cursor)
  {
    var last := page[|page| - 1];
    assert After(last, cursor);
    assert forall k | k in page :: k == last || Before(k, last);
    forall i, j | 0 <= i < j < |page + rest| ensures Before((page + rest)[i], (page + rest)[j]) {
      if j >= |page| {
        assert rest[j - |page|] in rest;
        if i < |page| { assert page[i] in page; }
      }
    }
  }

  /** Those left alone the longest come first. */
  lemma OldestFirst(views: seq<Snapshot>, o: Ages, batch: nat, i: nat, j: nat)
    requires i < j < |Flat(Pass(views, o, batch, None).pages)|
    ensures var keys := Flat(Pass(views, o, batch, None).pages);
      keys[i].at < keys[j].at || (keys[i].at == keys[j].at && keys[i].call < keys[j].call)
  {
    VisitsAreOrdered(views, o, batch, None);
    hide Pass, Flat;
    assert Before(Flat(Pass(views, o, batch, None).pages)[i], Flat(Pass(views, o, batch, None).pages)[j]);
  }

  /** Something is left to do about the call: it is open, or its outcome under a dispatch has not been observed. */
  predicate Unfinished(c: Call) {
    || c.state == Accepted || c.state == Admitted || c.state == Unknown || (c.state == Sent && c.marker.Some?)
    || ((c.state == Succeeded || c.state == Failed || c.state == Canceled) && c.observedAt.None? && c.dispatch.Some?)
  }

  /** A call is listed once it was left alone for longer than the age, a marked one once its marker is older than the
      send age; and if nothing is left to do about it, never. */
  lemma ListedExactly(v: Snapshot, o: Ages, c: Id)
    requires c in v.calls
    ensures var row := v.calls[c];
      Listed(v, o, c) <==> Unfinished(row) && if row.state == Sent then v.now - row.marker.value > o.sentAge
                                              else v.now - row.updatedAt > o.age
  {
  }

  // ---------------------------------------------------------------- a fixed table

  /** No row changes during the pass; the clock of its queries runs on. */
  ghost predicate FixedRows(views: seq<Snapshot>, calls: map<Id, Call>) {
    forall i | 0 <= i < |views| :: views[i].calls == calls
  }

  /** The key of a row that does not change. */
  predicate IsKeyOf(calls: map<Id, Call>, k: Key) {
    k.call in calls && k == Key(calls[k.call].updatedAt, k.call)
  }

  lemma OneMore(n: nat, batch: nat)
    ensures (n + 1) * batch == n * batch + batch
  {
  }

  /** In any environment every visited call is eligible at the query that lists it, under its key at that query. */
  lemma {:induction false} VisitedIsListed(views: seq<Snapshot>, o: Ages, batch: nat, cursor: Option<Key>, j: nat,
                                           k: Key)
    requires j < |Pass(views, o, batch, cursor).pages| && k in Pass(views, o, batch, cursor).pages[j]
    ensures j < |views| && Listed(views[j], o, k.call) && k == KeyOf(views[j], k.call)
    decreases |views|
  {
    hide Page, Selected, Pass, Listed;
    if views == [] {
      NoViews(o, batch, cursor);
    } else {
      var pages, page := Pass(views, o, batch, cursor).pages, Page(Selected(views[0], o, cursor), batch);
      PagesOf(views, o, batch, cursor);
      if j == 0 {
        PageIs(Selected(views[0], o, cursor), batch);
        SelectedIs(views[0], o, cursor);
      } else {
        assert pages[j] == pages[1..][j - 1];
        VisitedIsListed(views[1..], o, batch, Some(page[|page| - 1]), j - 1, k);
      }
    }
  }

  /** Over rows that do not change each call is visited under its one key, and every page but the last is full. */
  lemma {:induction false} FixedVisits(views: seq<Snapshot>, calls: map<Id, Call>, o: Ages, batch: nat,
                                       cursor: Option<Key>)
    requires FixedRows(views, calls) && batch >= 1
    ensures var r := Pass(views, o, batch, cursor);
      && (forall k | k in Flat(r.pages) :: IsKeyOf(calls, k))
      && (if r.completed then |r.pages| >= 1 && (|r.pages| - 1) * batch <= |Flat(r.pages)|
          else |r.pages| == |views| && |r.pages| * batch <= |Flat(r.pages)|)
    decreases |views|
  {
    hide Page, Selected, Pass;
    if views == [] {
      NoViews(o, batch, cursor);
    } else {
      var r, page := Pass(views, o, batch, cursor), Page(Selected(views[0], o, cursor), batch);
      PagesOf(views, o, batch, cursor);
      PageIs(Selected(views[0], o, cursor), batch);
      SelectedIs(views[0], o, cursor);
      if page == [] || |page| < batch {
        assert Flat(r.pages) == page by { assert Flat(r.pages[1..]) == []; }
      } else {
        var r' := Pass(views[1..], o, batch, Some(page[|page| - 1]));
        FixedVisits(views[1..], calls, o, batch, Some(page[|page| - 1]));
        assert r'.pages == r.pages[1..];
        OneMore(if r.completed then |r'.pages| - 1 else |r'.pages|, batch);
      }
    }
  }

  lemma DistinctCallsAreFew(keys: seq<Key>, calls: map<Id, Call>)
    requires Increasing(keys) && forall k | k in keys :: IsKeyOf(calls, k)
    ensures |keys| <= |calls| && forall i, j | 0 <= i < j < |keys| :: keys[i].call != keys[j].call
  {
    forall i, j | 0 <= i < j < |keys| ensures keys[i].call != keys[j].call {
      assert keys[i] in keys && keys[j] in keys && Before(keys[i], keys[j]);
    }
    DistinctCalls(keys);
    SubsetSize(Calls(keys), calls.Keys);
  }

  lemma {:induction false} DistinctCalls(keys: seq<Key>)
    requires forall i, j | 0 <= i < j < |keys| :: keys[i].call != keys[j].call
    ensures |Calls(keys)| == |keys|
  {
    if keys != [] {
      var init, last := keys[..|keys| - 1], keys[|keys| - 1];
      DistinctCalls(init);
      assert keys == init + [last];
      forall c ensures c in Calls(keys) <==> c in Calls(init) || c == last.call {
        if c in Calls(keys) {
          var k: Key :| k in keys && k.call == c;
          assert k in init || k == last;
        }
        if c in Calls(init) {
          var k: Key :| k in init && k.call == c;
          assert k in keys;
        }
        assert last in keys;
      }
      assert Calls(keys) == Calls(init) + {last.call};
      assert last.call !in Calls(init);
    }
  }

  /** Over rows that do not change, while the clock of the queries runs on, the pass ends after at most one query more
      than there are full pages of rows and visits no call twice. It visits only calls eligible at the query that
      lists them, and, once it ends, every call that was eligible at its start. */
  lemma FixedTableIsWalkedOnce(views: seq<Snapshot>, calls: map<Id, Call>, o: Ages, batch: nat)
    requires FixedRows(views, calls) && ClockRuns(views) && batch >= 1
    ensures var r := Pass(views, o, batch, None); var keys := Flat(r.pages);
      && (forall i, j | 0 <= i < j < |keys| :: keys[i].call != keys[j].call)
      && |r.pages| <= |calls| / batch + 1
      && (|views| > |calls| / batch ==> r.completed)
      && (forall j, k | 0 <= j < |r.pages| && k in r.pages[j] :: j < |views| && Listed(views[j], o, k.call))
      && (r.completed ==> views != [])
      && (r.completed ==> forall c | Listed(views[0], o, c) :: exists k :: k in keys && k.call == c)
  {
    hide Pass, Listed;
    var r := Pass(views, o, batch, None);
    var keys := Flat(r.pages);
    VisitsAreOrdered(views, o, batch, None);
    FixedVisits(views, calls, o, batch, None);
    DistinctCallsAreFew(keys, calls);
    PagesFit(if r.completed then |r.pages| - 1 else |r.pages|, |calls|, batch);
    forall j, k | 0 <= j < |r.pages| && k in r.pages[j] ensures j < |views| && Listed(views[j], o, k.call) {
      VisitedIsListed(views, o, batch, None, j, k);
    }
    if views == [] { NoViews(o, batch, None); }
    if r.completed {
      forall c | Listed(views[0], o, c) ensures exists k :: k in keys && k.call == c {
        FixedIsCovered(views, calls, o, batch, c);
      }
    }
  }

  /** Within one instant it visits exactly the eligible calls, each once. */
  lemma FixedInstantIsWalkedExactly(views: seq<Snapshot>, v: Snapshot, o: Ages, batch: nat)
    requires (forall i | 0 <= i < |views| :: views[i] == v) && batch >= 1 && Pass(views, o, batch, None).completed
    ensures var keys := Flat(Pass(views, o, batch, None).pages);
      && (forall i, j | 0 <= i < j < |keys| :: keys[i].call != keys[j].call)
      && forall c :: Listed(v, o, c) <==> exists k :: k in keys && k.call == c
  {
    hide Pass, Listed;
    var pages := Pass(views, o, batch, None).pages;
    FixedTableIsWalkedOnce(views, v.calls, o, batch);
    var keys := Flat(pages);
    assert views[0] == v;
    forall c ensures Listed(v, o, c) <==> exists k :: k in keys && k.call == c {
      if k: Key :| k in keys && k.call == c {
        var j := OnSomePage(pages, k);
        assert Listed(views[j], o, k.call);
      }
    }
  }

  lemma {:induction false} OnSomePage(pages: seq<seq<Key>>, k: Key) returns (j: nat)
    requires k in Flat(pages)
    ensures j < |pages| && k in pages[j]
  {
    if k in pages[0] { j := 0; } else {
      var i := OnSomePage(pages[1..], k);
      j := i + 1;
    }
  }

  lemma Ordered(m: nat, n: nat, batch: nat)
    requires m <= n
    ensures m * batch <= n * batch
  {
  }

  lemma PagesFit(pages: nat, rows: nat, batch: nat)
    requires batch >= 1 && pages * batch <= rows
    ensures pages <= rows / batch
  {
    if rows / batch + 1 <= pages {
      Ordered(rows / batch + 1, pages, batch);
    }
  }

  lemma {:induction false} InFlat(pages: seq<seq<Key>>, j: nat, k: Key)
    requires j < |pages| && k in pages[j]
    ensures k in Flat(pages)
  {
    if j > 0 { InFlat(pages[1..], j - 1, k); }
  }

  lemma FixedIsCovered(views: seq<Snapshot>, calls: map<Id, Call>, o: Ages, batch: nat, c: Id)
    requires FixedRows(views, calls) && ClockRuns(views) && batch >= 1 && views != []
    requires Pass(views, o, batch, None).completed && Listed(views[0], o, c)
    ensures exists k :: k in Flat(Pass(views, o, batch, None).pages) && k.call == c
  {
    hide Page, Selected, Pass;
    var pages := Pass(views, o, batch, None).pages;
    EveryEligibleCallIsVisited(views, o, batch, None, c);
    var j :| 0 <= j < |pages| && c in Calls(pages[j]);
    var k: Key :| k in pages[j] && k.call == c;
    InFlat(pages, j, k);
  }

  // ---------------------------------------------------------------- the loop

  lemma {:induction false} FlatSnoc(pages: seq<seq<Key>>, page: seq<Key>)
    ensures Flat(pages + [page]) == Flat(pages) + page
  {
    if pages == [] {
      assert pages + [page] == [page];
      assert Flat([page][1..]) == [];
    } else {
      assert (pages + [page])[1..] == pages[1..] + [page];
      FlatSnoc(pages[1..], page);
    }
  }

  class Reconciler {
    /** When an operator-pending UNKNOWN call is next asked about at Control. */
    var nextResolve: map<Id, Time>

    constructor ()
      ensures nextResolve == map[]
    {
      nextResolve := map[];
    }

    /** dueForResolve: a call is asked about only once its scheduled instant has come, and then scheduled again. */
    method DueForResolve(call: Id, now: Time, interval: Time) returns (due: bool)
      modifies this
      ensures due <==> interval <= 0 || call !in old(nextResolve) || old(nextResolve)[call] <= now
      ensures nextResolve == if due && interval > 0 then old(nextResolve)[call := now + interval] else old(nextResolve)
    {
      if interval <= 0 { return true; }
      if call in nextResolve && now < nextResolve[call] { return false; }
      nextResolve := nextResolve[call := now + interval];
      due := true;
    }

    /** Reconcile: the pages are those of the pass, the schedule keeps only visited calls and is never brought
        forward. */
    method Reconcile(views: seq<Snapshot>, o: Ages, batch: nat, interval: Time) returns (pages: seq<seq<Key>>,
        total: nat, completed: bool)
      modifies this
      ensures Outcome(pages, completed) == Pass(views, o, batch, None)
      ensures total == |Flat(pages)|
      ensures completed ==> nextResolve.Keys <= Calls(Flat(pages))
      ensures forall c | c in old(nextResolve) && (completed ==> c in Calls(Flat(pages))) ::
          c in nextResolve && old(nextResolve)[c] <= nextResolve[c]
    {
      hide Pass, Page, Calls;
      var seen: set<Id> := {};
      var cursor: Option<Key> := None;
      pages, total, completed := [], 0, false;
      ghost var whole := Pass(views, o, batch, None);
      assert Calls(Flat([])) == {} by { NoCalls(); }
      for i := 0 to |views|
        invariant total == |Flat(pages)| && seen == Calls(Flat(pages)) && !completed
        invariant var r := Pass(views[i..], o, batch, cursor); whole == Outcome(pages + r.pages, r.completed)
        invariant nextResolve.Keys <= old(nextResolve.Keys) + seen
        invariant forall c | c in old(nextResolve) :: c in nextResolve && old(nextResolve)[c] <= nextResolve[c]
      {
        var keys := Selected(views[i], o, cursor);
        var page := Page(keys, batch);
        PagesOf(views[i..], o, batch, cursor);
        PageIs(keys, batch);
        FlatSnoc(pages, page);
        assert views[i..][1..] == views[i + 1..];
        seen := seen + Calls(page);
        assert seen == Calls(Flat(pages + [page])) by { CallsJoin(Flat(pages), page); }
        total := total + |page|;
        Visit(views[i], page, interval);
        assert pages + Pass(views[i..], o, batch, cursor).pages == (pages + [page]) + Pass(views[i..], o, batch,
            cursor).pages[1..];
        pages := pages + [page];
        if page == [] || |page| < batch {
          completed := true;
          Prune(seen);
          return;
        }
        cursor := Some(page[|page| - 1]);
      }
      NoViews(o, batch, cursor);
    }

    /** The rows of one page, one by one; only the schedule of this process is kept here. */
    method Visit(v: Snapshot, page: seq<Key>, interval: Time)
      modifies this
      ensures nextResolve.Keys <= old(nextResolve.Keys) + Calls(page)
      ensures forall c | c in old(nextResolve) :: c in nextResolve && old(nextResolve)[c] <= nextResolve[c]
    {
      for i := 0 to |page|
        invariant nextResolve.Keys <= old(nextResolve.Keys) + Calls(page)
        invariant forall c | c in old(nextResolve) :: c in nextResolve && old(nextResolve)[c] <= nextResolve[c]
      {
        var c := page[i].call;
        OnPage(page, page[i]);
        if c in v.calls && v.calls[c].state == Unknown && v.calls[c].observedAt.Some? {
          var _ := DueForResolve(c, v.now, interval);
        }
      }
    }

    /** Calls the pass did not list are no longer scheduled. */
    method Prune(seen: set<Id>)
      modifies this
      ensures nextResolve == map c | c in old(nextResolve) && c in seen :: old(nextResolve)[c]
    {
      var rest := nextResolve.Keys;
      while rest != {}
        invariant nextResolve == map c | c in old(nextResolve) && (c in seen || c in rest) :: old(nextResolve)[c]
        decreases rest
      {
        var c :| c in rest;
        if c !in seen { nextResolve := nextResolve - {c}; }
        rest := rest - {c};
      }
    }
  }

  lemma NoCalls()
    ensures Calls([]) == {}
  {
  }

  lemma CallsJoin(a: seq<Key>, b: seq<Key>)
    ensures Calls(a + b) == Calls(a) + Calls(b)
  {
    forall c | c in Calls(a) + Calls(b) ensures c in Calls(a + b) {
      if c in Calls(a) {
        var k: Key :| k in a && k.call == c;
        assert k in a + b;
      } else {
        var k: Key :| k in b && k.call == c;
        assert k in a + b;
      }
    }
  }
}
