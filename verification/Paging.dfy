/** Cursor paging over the publication order. */
module Paging {
  // A cursor binds the store, the filters and the session scope, the boundary of the first page and the last publication
  // returned.

  import opened Wrappers
  import opened Tables
  import opened Ledger
  import opened History
  import Transaction
  import Prune

  /** What a cursor is bound to: every query field but the limit, which may change between pages. */
  datatype Filter = Filter(
    graphId: Option<Text>, graphVersion: Option<Text>, session: Option<Text>, outcome: Option<Text>,
    since: Option<int>, until: Option<int>, search: Option<Text>, descending: bool)

  datatype Binding = Binding(filter: Filter, scope: Option<set<Text>>)

  datatype Cursor = Cursor(store: int, binding: Binding, boundary: int, last: int) | Malformed

  datatype Query = Query(filter: Filter, limit: nat, cursor: Option<Cursor>)

  /** `contains` is substring search. */
  datatype Reader = Reader(config: Config, store: int, contains: (Text, Text) -> bool)

  datatype Item = Item(header: ContextHeader, publication: nat)

  datatype Page = Page(items: seq<Item>, cursor: Option<Cursor>, boundary: nat)

  const SCOPE_LIMIT: nat := 256

  function ScopeSet(scope: Option<seq<Text>>): Option<set<Text>> {
    if scope.None? then None else Some(set i | 0 <= i < |scope.value| :: scope.value[i])
  }

  // ---- which rows a page selects -------------------------------------------------------------------

  predicate Equals(wanted: Option<Text>, actual: Option<Text>) {
    wanted.Some? ==> actual == wanted
  }

  predicate Searched(wanted: Option<Text>, h: ContextHeader, contains: (Text, Text) -> bool) {
    wanted.Some? ==>
      || contains(h.context, wanted.value) || contains(h.session, wanted.value)
      || (h.graphId.Some? && contains(h.graphId.value, wanted.value))
      || (h.graphVersion.Some? && contains(h.graphVersion.value, wanted.value))
  }

  /** The time range compares finalization times; a context that has none is outside every range. */
  predicate InRange(f: Filter, stamp: Stamp) {
    && (f.since.Some? ==> stamp.Finalized? && stamp.at >= f.since.value)
    && (f.until.Some? ==> stamp.Finalized? && stamp.at <= f.until.value)
  }

  predicate Matches(b: Binding, h: ContextHeader, contains: (Text, Text) -> bool) {
    var f := b.filter;
    && Equals(f.graphId, h.graphId) && Equals(f.graphVersion, h.graphVersion)
    && Equals(f.session, Some(h.session)) && Equals(f.outcome, Some(h.outcome))
    && InRange(f, h.stamp) && Searched(f.search, h, contains)
    && (b.scope.Some? ==> h.session in b.scope.value)
  }

  /** `a` comes strictly before `b` in the order of the pages. */
  predicate Ahead(descending: bool, a: int, b: int) {
    if descending then a > b else a < b
  }

  /** Where a page starts: a descending first page has no lower limit to skip. */
  datatype Position = Position(boundary: nat, last: Option<int>)

  predicate Beyond(descending: bool, at: Position, k: int) {
    k <= at.boundary && (at.last.Some? ==> Ahead(descending, at.last.value, k))
  }

  function Candidates(contexts: map<nat, ContextRow>, b: Binding, at: Position, contains: (Text, Text) -> bool): set<nat> {
    set k | k in contexts && Beyond(b.filter.descending, at, k) && Matches(b, contexts[k].header, contains)
  }

  predicate IsNext(keys: set<nat>, descending: bool, k: nat) {
    k in keys && forall j :: j in keys && j != k ==> Ahead(descending, k, j)
  }

  lemma {:induction false} NextExists(keys: set<nat>, descending: bool) returns (k: nat)
    requires keys != {}
    ensures IsNext(keys, descending, k)
    decreases |keys|
  {
    var one :| one in keys;
    k := one;
    if keys - {one} != {} {
      var j := NextExists(keys - {one}, descending);
      if Ahead(descending, j, one) {
        k := j;
      }
      assert forall i :: i in keys ==> i == one || i in keys - {one};
    } else {
      assert keys == {one};
    }
  }

  /** ORDER BY publication. */
  ghost function Ordered(keys: set<nat>, descending: bool): (r: seq<nat>)
    decreases |keys|
  {
    if keys == {} then []
    else
      assert exists k :: IsNext(keys, descending, k) by { var k := NextExists(keys, descending); }
      var k :| IsNext(keys, descending, k);
      [k] + Ordered(keys - {k}, descending)
  }

  ghost predicate Strict(rows: seq<nat>, descending: bool) {
    forall i, j :: 0 <= i < j < |rows| ==> Ahead(descending, rows[i], rows[j])
  }

  lemma {:induction false} OrderedIs(keys: set<nat>, descending: bool)
    ensures var r := Ordered(keys, descending);
      && Strict(r, descending) && (forall k :: k in r <==> k in keys) && |r| == |keys|
    decreases |keys|
  {
    if keys != {} {
      var r := Ordered(keys, descending);
      assert IsNext(keys, descending, r[0]);
      var rest := Ordered(keys - {r[0]}, descending);
      OrderedIs(keys - {r[0]}, descending);
      assert r == [r[0]] + rest;
      assert forall i :: 0 < i < |r| ==> r[i] == rest[i - 1] && r[i] in keys - {r[0]};
    }
  }

  lemma OrderedStep(keys: set<nat>, descending: bool, k: nat)
    requires IsNext(keys, descending, k)
    ensures Ordered(keys, descending) == [k] + Ordered(keys - {k}, descending)
  {
    assert IsNext(keys, descending, Ordered(keys, descending)[0]);
  }

  // ---- one page ------------------------------------------------------------------------------------

  /** How many leading costs fit the budget. */
  function Fitting(costs: seq<nat>, budget: nat): nat {
    if costs == [] || costs[0] > budget then 0 else 1 + Fitting(costs[1..], budget - costs[0])
  }

  lemma {:induction false} FittingBounds(costs: seq<nat>, budget: nat)
    ensures Fitting(costs, budget) <= |costs|
    ensures costs != [] && costs[0] <= budget ==> Fitting(costs, budget) > 0
  {
    if costs != [] && costs[0] <= budget {
      FittingBounds(costs[1..], budget - costs[0]);
    }
  }

  function Least(a: nat, b: nat): nat {
    if a < b then a else b
  }

  function ItemOf(contexts: map<nat, ContextRow>, k: nat): Item
    requires k in contexts
  {
    Item(contexts[k].header, k)
  }

  /** Accepts its own cursors only: same store, same filters and scope, and a position not past the store's. */
  function Located(s: Store, q: Query, scope: Option<seq<Text>>, r: Reader): Result<Position> {
    if scope.Some? && |scope.value| > SCOPE_LIMIT then Failure(Contract)
    else
      match q.cursor
      case None => Success(Position(s.meta.publication, if q.filter.descending then None else Some(0)))
      case Some(Malformed) => Failure(Contract)
      case Some(Cursor(store, binding, boundary, last)) =>
        if store != r.store || binding != Binding(q.filter, ScopeSet(scope)) then Failure(Contract)
        else if 0 <= last <= boundary <= s.meta.publication then Success(Position(boundary, Some(last)))
        else Failure(Contract)
  }

  ghost function Rows(s: Store, b: Binding, at: Position, r: Reader): (rows: seq<nat>)
    ensures forall i :: 0 <= i < |rows| ==> rows[i] in s.contexts
  {
    var keys := Candidates(s.contexts, b, at, r.contains);
    OrderedIs(keys, b.filter.descending);
    assert forall k :: k in Ordered(keys, b.filter.descending) ==> k in s.contexts;
    Ordered(keys, b.filter.descending)
  }

  function Costs(items: seq<Item>, c: Config): (costs: seq<nat>)
    ensures |costs| == |items| && forall i :: 0 <= i < |items| ==> costs[i] == c.headerBytes(items[i].header, items[i].publication)
  {
    seq<nat>(|items|, i requires 0 <= i < |items| => c.headerBytes(items[i].header, items[i].publication))
  }

  ghost function Items(s: Store, b: Binding, at: Position, r: Reader): (items: seq<Item>)
    ensures |items| == |Rows(s, b, at, r)|
  {
    var rows := Rows(s, b, at, r);
    seq(|rows|, i requires 0 <= i < |rows| => ItemOf(s.contexts, rows[i]))
  }

  /** How many items the page holds: at most the limit, cut where the next header would exceed the byte budget. */
  ghost function Held(items: seq<Item>, limit: nat, c: Config): (n: nat)
    ensures n <= |items| && n <= limit
  {
    var offered := items[..Least(limit, |items|)];
    FittingBounds(Costs(offered, c), c.limits.pageBytes);
    Fitting(Costs(offered, c), c.limits.pageBytes)
  }

  ghost function Answer(s: Store, q: Query, scope: Option<seq<Text>>, r: Reader): Result<Page> {
    if q.limit > r.config.limits.pageItems then Failure(Contract)
    else
      var at :- Located(s, q, scope, r);
      var b := Binding(q.filter, ScopeSet(scope));
      var items := Items(s, b, at, r);
      var n := Held(items, q.limit, r.config);
      if items != [] && n == 0 then Failure(Backpressure)
      else
        var cursor := if |items| > n then Some(Cursor(r.store, b, at.boundary, items[n - 1].publication)) else None;
        Success(Page(items[..n], cursor, at.boundary))
  }

  // ---- what one page guarantees ------------------------------------------------------------------

  ghost predicate Listed(items: seq<Item>, k: nat) {
    exists i :: 0 <= i < |items| && items[i].publication == k
  }

  ghost predicate InOrder(items: seq<Item>, descending: bool) {
    forall i, j :: 0 <= i < j < |items| ==> Ahead(descending, items[i].publication, items[j].publication)
  }

  /** Every item is a stored, matching context past the page's position. */
  ghost predicate Genuine(items: seq<Item>, contexts: map<nat, ContextRow>, b: Binding, at: Position, r: Reader) {
    forall i :: 0 <= i < |items| ==>
      && items[i].publication in contexts && items[i].header == contexts[items[i].publication].header
      && Beyond(b.filter.descending, at, items[i].publication) && Matches(b, items[i].header, r.contains)
  }

  /** A final page lists every candidate; any other lists every candidate up to its last item and points there. */
  ghost predicate Covers(p: Page, candidates: set<nat>, b: Binding, r: Reader) {
    match p.cursor
    case None => forall k :: k in candidates ==> Listed(p.items, k)
    case Some(cursor) =>
      && p.items != [] && cursor == Cursor(r.store, b, p.boundary, p.items[|p.items| - 1].publication)
      && forall k :: k in candidates && !Ahead(b.filter.descending, p.items[|p.items| - 1].publication, k) ==> Listed(p.items, k)
  }

  lemma PrefixCovers(rows: seq<nat>, descending: bool, n: nat, k: nat)
    requires Strict(rows, descending) && n <= |rows| && k in rows
    requires n == |rows| || (n > 0 && !Ahead(descending, rows[n - 1], k))
    ensures k in rows[..n]
  {
    var i :| 0 <= i < |rows| && rows[i] == k;
    assert rows[..n][i] == k;
  }

  /** The first `n` items reach `k`: there are no more, or the last of them is not before `k`. */
  ghost predicate Reached(items: seq<Item>, n: nat, descending: bool, k: nat)
    requires n <= |items|
  {
    n == |items| || (n > 0 && !Ahead(descending, items[n - 1].publication, k))
  }

  lemma ItemsAreRows(s: Store, b: Binding, at: Position, r: Reader)
    ensures var keys, rows := Candidates(s.contexts, b, at, r.contains), Rows(s, b, at, r);
      && rows == Ordered(keys, b.filter.descending)
      && Strict(rows, b.filter.descending) && (forall k :: k in rows <==> k in keys)
    ensures forall i :: 0 <= i < |Items(s, b, at, r)| ==> Items(s, b, at, r)[i] == ItemOf(s.contexts, Rows(s, b, at, r)[i])
  {
    OrderedIs(Candidates(s.contexts, b, at, r.contains), b.filter.descending);
  }

  lemma ItemsGenuine(s: Store, b: Binding, at: Position, r: Reader, n: nat)
    requires n <= |Items(s, b, at, r)|
    ensures InOrder(Items(s, b, at, r)[..n], b.filter.descending)
    ensures Genuine(Items(s, b, at, r)[..n], s.contexts, b, at, r)
  {
    ItemsAreRows(s, b, at, r);
    var rows, items := Rows(s, b, at, r), Items(s, b, at, r);
    assert forall i :: 0 <= i < |items| ==> rows[i] in rows && items[i].publication == rows[i];
  }

  lemma ItemsCover(s: Store, b: Binding, at: Position, r: Reader, n: nat, k: nat)
    requires n <= |Items(s, b, at, r)| && k in Candidates(s.contexts, b, at, r.contains)
    requires Reached(Items(s, b, at, r), n, b.filter.descending, k)
    ensures Listed(Items(s, b, at, r)[..n], k)
  {
    ItemsAreRows(s, b, at, r);
    var rows, items := Rows(s, b, at, r), Items(s, b, at, r);
    PrefixCovers(rows, b.filter.descending, n, k);
    var i :| 0 <= i < n && rows[..n][i] == k;
    assert items[..n][i].publication == k;
  }

  /** A page is in order, genuine, within its limit and budget, and complete up to where it stops. */
  lemma PageIsExact(s: Store, q: Query, scope: Option<seq<Text>>, r: Reader)
    requires Answer(s, q, scope, r).Success?
    ensures var p, b, at := Answer(s, q, scope, r).value, Binding(q.filter, ScopeSet(scope)), Located(s, q, scope, r).value;
      && p.boundary == at.boundary && |p.items| <= q.limit
      && InOrder(p.items, q.filter.descending) && Genuine(p.items, s.contexts, b, at, r)
      && Covers(p, Candidates(s.contexts, b, at, r.contains), b, r)
  {
    var p, b, at := Answer(s, q, scope, r).value, Binding(q.filter, ScopeSet(scope)), Located(s, q, scope, r).value;
    var items := Items(s, b, at, r);
    ItemsGenuine(s, b, at, r, |p.items|);
    forall k | k in Candidates(s.contexts, b, at, r.contains) && Reached(items, |p.items|, b.filter.descending, k)
      ensures Listed(p.items, k)
    {
      ItemsCover(s, b, at, r, |p.items|, k);
    }
  }

  /** What the headers of a page take. */
  function HeaderBytes(items: seq<Item>, c: Config): nat {
    if items == [] then 0 else c.headerBytes(items[0].header, items[0].publication) + HeaderBytes(items[1..], c)
  }

  /** The page stops early only at its limit or where one more header would exceed the byte budget. */
  ghost predicate Full(items: seq<Item>, next: Item, limit: nat, c: Config) {
    |items| == limit || HeaderBytes(items, c) + c.headerBytes(next.header, next.publication) > c.limits.pageBytes
  }

  lemma {:induction false} FittingMeans(items: seq<Item>, budget: nat, c: Config)
    ensures var n := Fitting(Costs(items, c), budget);
      && n <= |items| && HeaderBytes(items[..n], c) <= budget
      && (n < |items| ==> HeaderBytes(items[..n], c) + c.headerBytes(items[n].header, items[n].publication) > budget)
  {
    var costs := Costs(items, c);
    if items != [] && costs[0] <= budget {
      assert Costs(items[1..], c) == costs[1..];
      FittingMeans(items[1..], budget - costs[0], c);
      var n := Fitting(costs, budget);
      assert items[..n][1..] == items[1..][..n - 1];
    } else {
      assert items[..0] == [];
    }
  }

  lemma HeldIsFull(items: seq<Item>, limit: nat, c: Config)
    ensures var n := Held(items, limit, c);
      HeaderBytes(items[..n], c) <= c.limits.pageBytes && (n < |items| ==> Full(items[..n], items[n], limit, c))
  {
    var offered := items[..Least(limit, |items|)];
    FittingMeans(offered, c.limits.pageBytes, c);
    var n := Held(items, limit, c);
    assert offered[..n] == items[..n];
  }

  /** There is more: the first candidate past the page exists and is not on it. */
  ghost predicate NextIs(s: Store, b: Binding, at: Position, r: Reader, items: seq<Item>, next: Item) {
    var candidates := Candidates(s.contexts, b, at, r.contains);
    && next.publication in candidates && next == ItemOf(s.contexts, next.publication)
    && (items != [] ==> Ahead(b.filter.descending, items[|items| - 1].publication, next.publication))
    && forall k :: k in candidates && k != next.publication && !Listed(items, k) ==> Ahead(b.filter.descending, next.publication, k)
  }

  lemma NextItem(s: Store, b: Binding, at: Position, r: Reader, n: nat)
    requires n < |Items(s, b, at, r)|
    ensures NextIs(s, b, at, r, Items(s, b, at, r)[..n], Items(s, b, at, r)[n])
  {
    ItemsAreRows(s, b, at, r);
    var rows, items, candidates := Rows(s, b, at, r), Items(s, b, at, r), Candidates(s.contexts, b, at, r.contains);
    assert rows[n] in rows;
    assert forall j :: 0 <= j < n ==> items[..n][j].publication == rows[j];
    forall k | k in candidates && k != rows[n] && !Listed(items[..n], k)
      ensures Ahead(b.filter.descending, rows[n], k)
    {
      assert k in rows;
      var i :| 0 <= i < |rows| && rows[i] == k;
    }
  }

  /**
    A page is as full as it may be: within its limit and its bytes, and when there is a cursor there is a next context,
    which did not fit any more.
   */
  lemma PageIsFull(s: Store, q: Query, scope: Option<seq<Text>>, r: Reader)
    requires Answer(s, q, scope, r).Success?
    ensures var p, b, at := Answer(s, q, scope, r).value, Binding(q.filter, ScopeSet(scope)), Located(s, q, scope, r).value;
      && |p.items| <= q.limit && HeaderBytes(p.items, r.config) <= r.config.limits.pageBytes
      && (p.cursor.Some? ==> exists next :: NextIs(s, b, at, r, p.items, next) && Full(p.items, next, q.limit, r.config))
  {
    hide Held, NextIs, Full, Candidates;
    var b, at := Binding(q.filter, ScopeSet(scope)), Located(s, q, scope, r).value;
    var items := Items(s, b, at, r);
    var n := Held(items, q.limit, r.config);
    HeldIsFull(items, q.limit, r.config);
    if n < |items| {
      NextItem(s, b, at, r, n);
      assert NextIs(s, b, at, r, items[..n], items[n]) && Full(items[..n], items[n], q.limit, r.config);
    }
  }

  /** A cursor is accepted by the store it came from, for the same filters and scope, at a place it has reached. */
  lemma CursorAccepted(s: Store, q: Query, scope: Option<seq<Text>>, r: Reader)
    ensures Located(s, q, scope, r).Success? <==>
      && (scope.Some? ==> |scope.value| <= 256)
      && (q.cursor.Some? ==>
            var k := q.cursor.value;
            && k.Cursor? && k.store == r.store && k.binding.filter == q.filter
            && k.binding.scope == (if scope.None? then None else Some(set x | x in scope.value))
            && 0 <= k.last <= k.boundary <= s.meta.publication)
    ensures Located(s, q, scope, r).Failure? ==> Located(s, q, scope, r) == Failure(Contract)
    ensures Located(s, q, scope, r).Success? ==>
      var at := Located(s, q, scope, r).value;
      && at.boundary == (if q.cursor.Some? then q.cursor.value.boundary else s.meta.publication)
      && (q.cursor.Some? ==> at.last == Some(q.cursor.value.last))
      && (q.cursor.None? ==> forall k: nat :: k <= at.boundary && k > 0 ==> Beyond(q.filter.descending, at, k))
  {
    if scope.Some? {
      assert ScopeSet(scope).value == set x | x in scope.value;
    }
  }

  /** A query is refused as such exactly for its limit or its cursor. */
  lemma QueryRefused(s: Store, q: Query, scope: Option<seq<Text>>, r: Reader)
    ensures Answer(s, q, scope, r) == Failure(Contract) <==> q.limit > r.config.limits.pageItems || Located(s, q, scope, r).Failure?
  {
    CursorAccepted(s, q, scope, r);
  }

  /** A context matches exactly if it passes every filter that is set; without any filter every context matches. */
  lemma MatchesExactly(b: Binding, h: ContextHeader, contains: (Text, Text) -> bool)
    ensures Matches(b, h, contains) <==>
      && (b.filter.graphId.Some? ==> h.graphId == b.filter.graphId)
      && (b.filter.graphVersion.Some? ==> h.graphVersion == b.filter.graphVersion)
      && (b.filter.session.Some? ==> h.session == b.filter.session.value)
      && (b.filter.outcome.Some? ==> h.outcome == b.filter.outcome.value)
      && (b.filter.since.Some? ==> h.stamp.Finalized? && b.filter.since.value <= h.stamp.at)
      && (b.filter.until.Some? ==> h.stamp.Finalized? && h.stamp.at <= b.filter.until.value)
      && (b.filter.search.Some? ==>
            exists t :: t in [Some(h.context), Some(h.session), h.graphId, h.graphVersion] && t.Some? && contains(t.value, b.filter.search.value))
      && (b.scope.Some? ==> h.session in b.scope.value)
  {
    var texts := [Some(h.context), Some(h.session), h.graphId, h.graphVersion];
    assert texts[0] in texts && texts[1] in texts && texts[2] in texts && texts[3] in texts;
  }

  // ---- a walk: pages asked for with the cursor of the page before -----------------------------------

  /** One page request; the limit may change from page to page. */
  datatype Visit = Visit(store: Store, limit: nat)

  ghost function PageAt(visits: seq<Visit>, f: Filter, scope: Option<seq<Text>>, r: Reader): Result<Page>
    requires visits != []
    decreases |visits|
  {
    var last := visits[|visits| - 1];
    if |visits| == 1 then Answer(last.store, Query(f, last.limit, None), scope, r)
    else
      var before :- PageAt(visits[..|visits| - 1], f, scope, r);
      Answer(last.store, Query(f, last.limit, before.cursor), scope, r)
  }

  /** Each page but the last promised more; between pages the store only dropped contexts and published later ones. */
  ghost predicate Walk(visits: seq<Visit>, f: Filter, scope: Option<seq<Text>>, r: Reader)
    decreases |visits|
  {
    && visits != [] && PageAt(visits, f, scope, r).Success? && Bounded(visits[|visits| - 1].store)
    && (|visits| > 1 ==>
          var init := visits[..|visits| - 1];
          && Walk(init, f, scope, r) && PageAt(init, f, scope, r).value.cursor.Some?
          && ContextsKept(visits[|visits| - 1].store, init[|init| - 1].store))
  }

  ghost function Seen(visits: seq<Visit>, f: Filter, scope: Option<seq<Text>>, r: Reader): seq<Item>
    requires Walk(visits, f, scope, r)
    decreases |visits|
  {
    var page := PageAt(visits, f, scope, r).value;
    if |visits| == 1 then page.items else Seen(visits[..|visits| - 1], f, scope, r) + page.items
  }

  /** A stored, matching context that was already published when the walk began. */
  ghost predicate Wanted(contexts: map<nat, ContextRow>, k: nat, first: nat, b: Binding, r: Reader) {
    k in contexts && k <= first && Matches(b, contexts[k].header, r.contains)
  }

  /** What the pages so far amount to. */
  ghost predicate Walked(seen: seq<Item>, p: Page, contexts: map<nat, ContextRow>, first: nat, b: Binding, r: Reader) {
    && p.boundary == first && InOrder(seen, b.filter.descending)
    && (forall i :: 0 <= i < |seen| ==> seen[i].publication <= first && Matches(b, seen[i].header, r.contains))
    && match p.cursor
       case None => forall k: nat :: Wanted(contexts, k, first, b, r) ==> Listed(seen, k)
       case Some(cursor) =>
         && seen != [] && cursor == Cursor(r.store, b, first, seen[|seen| - 1].publication)
         && forall k: nat :: Wanted(contexts, k, first, b, r) && !Ahead(b.filter.descending, seen[|seen| - 1].publication, k) ==>
              Listed(seen, k)
  }

  lemma FirstPage(v: Visit, f: Filter, scope: Option<seq<Text>>, r: Reader)
    requires Bounded(v.store) && Answer(v.store, Query(f, v.limit, None), scope, r).Success?
    ensures var p := Answer(v.store, Query(f, v.limit, None), scope, r).value;
      Walked(p.items, p, v.store.contexts, v.store.meta.publication, Binding(f, ScopeSet(scope)), r)
  {
    var q, b := Query(f, v.limit, None), Binding(f, ScopeSet(scope));
    PageIsExact(v.store, q, scope, r);
    forall k | k in v.store.contexts && Matches(b, v.store.contexts[k].header, r.contains)
      ensures k in Candidates(v.store.contexts, b, Located(v.store, q, scope, r).value, r.contains)
    {
    }
  }

  lemma ListedAppend(a: seq<Item>, b: seq<Item>, k: nat)
    ensures Listed(a + b, k) <==> Listed(a, k) || Listed(b, k)
  {
    if Listed(a, k) {
      var i :| 0 <= i < |a| && a[i].publication == k;
      assert (a + b)[i].publication == k;
    }
    if Listed(b, k) {
      var i :| 0 <= i < |b| && b[i].publication == k;
      assert (a + b)[|a| + i].publication == k;
    }
  }

  lemma JoinedInOrder(seen: seq<Item>, items: seq<Item>, descending: bool)
    requires InOrder(seen, descending) && InOrder(items, descending)
    requires seen != [] ==> forall i :: 0 <= i < |items| ==> Ahead(descending, seen[|seen| - 1].publication, items[i].publication)
    ensures InOrder(seen + items, descending)
  {
    var all := seen + items;
    forall i, j | 0 <= i < j < |all|
      ensures Ahead(descending, all[i].publication, all[j].publication)
    {
      if i < |seen| <= j && i != |seen| - 1 {
        assert Ahead(descending, seen[i].publication, seen[|seen| - 1].publication);
      }
    }
  }

  lemma NextPage(seen: seq<Item>, before: Page, prior: map<nat, ContextRow>, first: nat, v: Visit, f: Filter,
                 scope: Option<seq<Text>>, r: Reader)
    requires Walked(seen, before, prior, first, Binding(f, ScopeSet(scope)), r) && before.cursor.Some?
    requires forall k :: k in v.store.contexts && k <= first ==> k in prior && v.store.contexts[k] == prior[k]
    requires Answer(v.store, Query(f, v.limit, before.cursor), scope, r).Success?
    ensures var p := Answer(v.store, Query(f, v.limit, before.cursor), scope, r).value;
      Walked(seen + p.items, p, v.store.contexts, first, Binding(f, ScopeSet(scope)), r)
  {
    var q, b := Query(f, v.limit, before.cursor), Binding(f, ScopeSet(scope));
    var p, at := Answer(v.store, q, scope, r).value, Located(v.store, q, scope, r).value;
    PageIsExact(v.store, q, scope, r);
    var last := seen[|seen| - 1].publication;
    JoinedInOrder(seen, p.items, f.descending);
    forall k: nat | Wanted(v.store.contexts, k, first, b, r)
      ensures Ahead(f.descending, last, k) ==> k in Candidates(v.store.contexts, b, at, r.contains)
      ensures !Ahead(f.descending, last, k) ==> Listed(seen, k)
      ensures Listed(seen + p.items, k) <==> Listed(seen, k) || Listed(p.items, k)
    {
      assert !Ahead(f.descending, last, k) ==> Wanted(prior, k, first, b, r);
      ListedAppend(seen, p.items, k);
    }
  }

  /**
    Following the cursors from any first page, whatever is written and pruned between the pages: strictly ordered
    headers without repeats, none above the first page's boundary, and at the end every matching context still stored.
   */
  lemma {:induction false} WalkIsExact(visits: seq<Visit>, f: Filter, scope: Option<seq<Text>>, r: Reader)
    requires Walk(visits, f, scope, r)
    ensures var v := visits[|visits| - 1];
      Walked(Seen(visits, f, scope, r), PageAt(visits, f, scope, r).value, v.store.contexts,
             visits[0].store.meta.publication, Binding(f, ScopeSet(scope)), r)
      && visits[0].store.meta.publication <= v.store.meta.publication
    decreases |visits|
  {
    var v := visits[|visits| - 1];
    if |visits| == 1 {
      FirstPage(v, f, scope, r);
    } else {
      var init := visits[..|visits| - 1];
      WalkIsExact(init, f, scope, r);
      NextPage(Seen(init, f, scope, r), PageAt(init, f, scope, r).value, init[|init| - 1].store.contexts,
               visits[0].store.meta.publication, v, f, scope, r);
    }
  }

  /** A page with an acceptable cursor fails exactly when its first header does not fit. */
  lemma PageRefused(s: Store, q: Query, scope: Option<seq<Text>>, r: Reader)
    requires q.limit <= r.config.limits.pageItems && Located(s, q, scope, r).Success?
    ensures var items := Items(s, Binding(q.filter, ScopeSet(scope)), Located(s, q, scope, r).value, r);
      && (Answer(s, q, scope, r).Failure? ==> Answer(s, q, scope, r) == Failure(Backpressure))
      && (Answer(s, q, scope, r).Failure? <==>
            items != [] && (q.limit == 0 || r.config.headerBytes(items[0].header, items[0].publication) > r.config.limits.pageBytes))
  {
    var items := Items(s, Binding(q.filter, ScopeSet(scope)), Located(s, q, scope, r).value, r);
    if items != [] {
      HeldNone(items, q.limit, r.config);
    }
  }

  lemma HeldNone(items: seq<Item>, limit: nat, c: Config)
    requires items != []
    ensures Held(items, limit, c) == 0 <==>
      limit == 0 || c.headerBytes(items[0].header, items[0].publication) > c.limits.pageBytes
  {
    var offered := items[..Least(limit, |items|)];
    FittingBounds(Costs(offered, c), c.limits.pageBytes);
  }

  /** The store never calls its own cursor foreign: the next page fails only when one header exceeds the page. */
  lemma NextPageAccepted(visits: seq<Visit>, v: Visit, f: Filter, scope: Option<seq<Text>>, r: Reader)
    requires Walk(visits, f, scope, r) && PageAt(visits, f, scope, r).value.cursor.Some?
    requires ContextsKept(v.store, visits[|visits| - 1].store) && v.limit <= r.config.limits.pageItems
    ensures var cursor := PageAt(visits, f, scope, r).value.cursor;
      && Located(v.store, Query(f, v.limit, cursor), scope, r).Success?
      && PageAt(visits + [v], f, scope, r) == Answer(v.store, Query(f, v.limit, cursor), scope, r)
      && PageAt(visits + [v], f, scope, r) != Failure(Contract)
  {
    var q := Query(f, v.limit, PageAt(visits, f, scope, r).value.cursor);
    assert (visits + [v])[..|visits|] == visits;
    assert Located(v.store, q, scope, r).Success? by {
      WalkIsExact(visits, f, scope, r);
      var seen := Seen(visits, f, scope, r);
      assert seen[|seen| - 1].publication <= visits[0].store.meta.publication;
    }
    PageRefused(v.store, q, scope, r);
  }

  lemma {:induction false} FewItems(items: seq<Item>, descending: bool, last: nat)
    requires InOrder(items, descending) && forall i :: 0 <= i < |items| ==> items[i].publication <= last
    ensures |items| <= last + 1
    ensures items != [] ==> |items| <= 1 + if descending then last - items[|items| - 1].publication else items[|items| - 1].publication
  {
    if |items| > 1 {
      var init := items[..|items| - 1];
      FewItems(init, descending, last);
      assert Ahead(descending, init[|init| - 1].publication, items[|items| - 1].publication);
    }
  }

  /** Every page with a cursor brings at least one more item. */
  lemma {:induction false} EveryPageAdvances(visits: seq<Visit>, f: Filter, scope: Option<seq<Text>>, r: Reader)
    requires Walk(visits, f, scope, r)
    ensures |visits| <= |Seen(visits, f, scope, r)| + if PageAt(visits, f, scope, r).value.cursor.Some? then 0 else 1
    decreases |visits|
  {
    var v := visits[|visits| - 1];
    var cursor := if |visits| == 1 then None else PageAt(visits[..|visits| - 1], f, scope, r).value.cursor;
    PageIsExact(v.store, Query(f, v.limit, cursor), scope, r);
    if |visits| > 1 {
      EveryPageAdvances(visits[..|visits| - 1], f, scope, r);
    }
  }

  /** A walk ends: it cannot have more pages than there were publications when it began, plus a last empty one. */
  lemma WalkEnds(visits: seq<Visit>, f: Filter, scope: Option<seq<Text>>, r: Reader)
    requires Walk(visits, f, scope, r)
    ensures |visits| <= visits[0].store.meta.publication + 2
  {
    EveryPageAdvances(visits, f, scope, r);
    WalkIsExact(visits, f, scope, r);
    FewItems(Seen(visits, f, scope, r), f.descending, visits[0].store.meta.publication);
  }

  // ---- walks over runs of the store ------------------------------------------------------------------

  lemma BoundedWhenSound(s: Store)
    requires Sound(s)
    ensures Bounded(s)
  {
    SoundParts(s);
  }

  lemma WriteKeepsContexts(s: Store, b: Batch, wall: int, c: Config)
    requires Sound(s) && FixedExpiry(s, c.policy)
    ensures ContextsKept(Transaction.WriteBatch(s, b, wall, c).store, s)
  {
    Transaction.WriteOutcomes(s, b, wall, c);
    var w, t := Transaction.WriteBatch(s, b, wall, c), Transaction.Clocked(s, wall);
    if w.result == Success(Transaction.Receipt(b.sequence, false)) {
      Transaction.ClockedSound(s, wall);
      PublishEffect(t, b, t.meta.clock, c);
    }
  }

  lemma MaintainKeepsContexts(s: Store, wall: int, c: Config)
    requires Sound(s)
    ensures ContextsKept(Transaction.Maintain(s, wall, c).store, s)
  {
    Transaction.ClockedSound(s, wall);
    Prune.PruneRetains(Transaction.Clocked(s, wall), Transaction.Clocked(s, wall).meta.clock, c.policy);
  }

  lemma ApplyKeepsContexts(h: History, op: Operation, c: Config)
    requires Consistent(h, c.policy)
    ensures ContextsKept(Apply(h, op, c).store, h.store)
  {
    match op
    case Offer(b, wall, _) => WriteKeepsContexts(h.store, b, wall, c);
    case Tidy(wall, _) => MaintainKeepsContexts(h.store, wall, c);
  }

  lemma KeptTransitive(u: Store, t: Store, s: Store)
    requires ContextsKept(u, t) && ContextsKept(t, s)
    ensures ContextsKept(u, s)
  {
  }

  /** Any run of writes and maintenance, faults included, leaves old contexts as they were or drops them. */
  lemma {:induction false} RunsKeepContexts(h: History, ops: seq<Operation>, c: Config)
    requires Consistent(h, c.policy)
    ensures ContextsKept(ApplyAll(h, ops, c).store, h.store)
  {
    if ops != [] {
      var init := ops[..|ops| - 1];
      RunsKeepContexts(h, init, c);
      EveryRunIsConsistent(h, init, c);
      ApplyKeepsContexts(ApplyAll(h, init, c), ops[|ops| - 1], c);
      KeptTransitive(ApplyAll(h, ops, c).store, ApplyAll(h, init, c).store, h.store);
    }
  }

  /** Operations by anyone, then one page request. */
  datatype Turn = Turn(before: seq<Operation>, limit: nat)

  ghost function HistoryAt(h: History, turns: seq<Turn>, c: Config): History {
    if turns == [] then h else ApplyAll(HistoryAt(h, turns[..|turns| - 1], c), turns[|turns| - 1].before, c)
  }

  ghost function Visits(h: History, turns: seq<Turn>, c: Config): (visits: seq<Visit>)
    ensures |visits| == |turns|
  {
    if turns == [] then []
    else Visits(h, turns[..|turns| - 1], c) + [Visit(HistoryAt(h, turns, c).store, turns[|turns| - 1].limit)]
  }

  /** The reader asked for every page but the first because the page before said there was more. */
  ghost predicate Followed(visits: seq<Visit>, f: Filter, scope: Option<seq<Text>>, r: Reader)
    decreases |visits|
  {
    && visits != [] && PageAt(visits, f, scope, r).Success?
    && (|visits| > 1 ==>
          Followed(visits[..|visits| - 1], f, scope, r) && PageAt(visits[..|visits| - 1], f, scope, r).value.cursor.Some?)
  }

  lemma {:induction false} FollowedIsWalk(h: History, turns: seq<Turn>, f: Filter, scope: Option<seq<Text>>, r: Reader)
    requires Consistent(h, r.config.policy) && Followed(Visits(h, turns, r.config), f, scope, r)
    ensures Walk(Visits(h, turns, r.config), f, scope, r)
    ensures Consistent(HistoryAt(h, turns, r.config), r.config.policy)
  {
    var init, visits := turns[..|turns| - 1], Visits(h, turns, r.config);
    var before := HistoryAt(h, init, r.config);
    assert visits[..|visits| - 1] == Visits(h, init, r.config);
    if |turns| > 1 {
      FollowedIsWalk(h, init, f, scope, r);
      assert visits[|visits| - 2] == Visits(h, init, r.config)[|init| - 1];
      RunsKeepContexts(before, turns[|turns| - 1].before, r.config);
    } else {
      assert init == [];
    }
    EveryRunIsConsistent(before, turns[|turns| - 1].before, r.config);
    BoundedWhenSound(HistoryAt(h, turns, r.config).store);
  }

  /**
    The page walk: for any writes, retries and retention between the pages and any page limits, the pages list
    headers strictly in order, none twice, none newer than the first page, and the last page completes the set
    of matching contexts that are still stored.
   */
  lemma PageWalk(h: History, turns: seq<Turn>, f: Filter, scope: Option<seq<Text>>, r: Reader)
    requires Consistent(h, r.config.policy) && Followed(Visits(h, turns, r.config), f, scope, r)
    ensures var visits := Visits(h, turns, r.config);
      && Walk(visits, f, scope, r) && |visits| <= visits[0].store.meta.publication + 2
      && Walked(Seen(visits, f, scope, r), PageAt(visits, f, scope, r).value, visits[|visits| - 1].store.contexts,
                visits[0].store.meta.publication, Binding(f, ScopeSet(scope)), r)
  {
    FollowedIsWalk(h, turns, f, scope, r);
    WalkIsExact(Visits(h, turns, r.config), f, scope, r);
    WalkEnds(Visits(h, turns, r.config), f, scope, r);
  }
}
