/**
 Paging over the results of the entry query builder: scrolling by `WithOffsetID`
 (internal/storage/entry_query_builder.go) and Google Reader continuations
 (internal/googlereader/handler.go). Queries order the same rows the same way each time.
 */
module Paging {
  import opened Prelude
  import opened SqlReading
  import opened QueryPlan
  import B = QueryBuilder

  // ---- what a query answers ----

  ghost function Selected(from: Scope, where: string, args: seq<Arg>, table: seq<Row>): seq<Id> {
    if table == [] then [] else
    var n := |table| - 1;
    Selected(from, where, args, table[..n])
    + if EvalWhere(where, from, args, table[n]) == Some(true) then [table[n].id] else []
  }

  /** The rows a predicate keeps, in the order of the table. */
  ghost function Chosen(p: Row -> bool, table: seq<Row>): seq<Id> {
    if table == [] then [] else
    var n := |table| - 1;
    Chosen(p, table[..n]) + if p(table[n]) then [table[n].id] else []
  }

  /** COALESCE((SELECT row_number ...), 0) */
  function RowNumber(ids: seq<Id>, id: Id): (n: nat)
    ensures n <= |ids|
    ensures n == 0 <==> id !in ids
    ensures n > 0 ==> ids[n - 1] == id && id !in ids[..n - 1]
  {
    if ids == [] then 0 else
    var m := |ids| - 1;
    assert ids == ids[..m] + [ids[m]];
    var k := RowNumber(ids[..m], id);
    if k > 0 then (assert ids[..m][..k - 1] == ids[..k - 1]; k) else if ids[m] == id then m + 1 else 0
  }

  /** The first `k` rows without those a row-number condition excludes. */
  ghost function Past(ids: seq<Id>, tests: seq<Option<RowTest>>, k: nat): seq<Id>
    requires k <= |ids|
  {
    if k == 0 then [] else
    Past(ids, tests, k - 1) + if Beyond(ids, tests, k) then [ids[k - 1]] else []
  }

  /** Row number `k` passes every condition. */
  ghost predicate Beyond(ids: seq<Id>, tests: seq<Option<RowTest>>, k: nat) {
    forall j :: 0 <= j < |tests| ==> tests[j].Some? && Passes(ids, tests[j].value, k)
  }

  /** The operator of the condition, applied to the two row numbers. */
  ghost predicate Passes(ids: seq<Id>, test: RowTest, k: nat) {
    Compare(test.operator, Number(k), Num(RowNumber(ids, test.id))) == Some(true)
  }

  /** The one condition of a query that scrolls. */
  function Behind(anchor: Id): seq<Option<RowTest>> { [Some(RowTest(Greater, anchor))] }

  function Take(ids: seq<Id>, limit: int): seq<Id> { if 0 < limit < |ids| then ids[..limit] else ids }

  function Drop(ids: seq<Id>, offset: int): seq<Id> {
    if offset <= 0 then ids else if offset < |ids| then ids[offset..] else []
  }

  /** The row-number conditions of a query. */
  function TestsOf(high: string, args: seq<Arg>): seq<Option<RowTest>> {
    if high == "" then [] else TestsIn(Split(high), args)
  }

  function TestsIn(parts: seq<string>, args: seq<Arg>): (tests: seq<Option<RowTest>>)
    ensures |tests| == |parts| && forall j :: 0 <= j < |parts| ==> tests[j] == EvalHigh(parts[j], args)
  {
    seq(|parts|, j requires 0 <= j < |parts| => EvalHigh(parts[j], args))
  }

  /** The ids a query returns from a table in its final order. */
  ghost function Answer(q: B.Query, args: seq<Arg>, table: seq<Row>): seq<Id> {
    var ids := Selected(q.from, q.where, args, table);
    Take(Drop(Past(ids, TestsOf(q.high, args), |ids|), q.offset), q.limit)
  }

  ghost predicate Means(from: Scope, where: string, args: seq<Arg>, p: Row -> bool) {
    forall row :: EvalWhere(where, from, args, row) == Some(p(row))
  }

  lemma {:induction false} SelectedIsChosen(from: Scope, where: string, args: seq<Arg>, p: Row -> bool, table: seq<Row>)
    requires Means(from, where, args, p)
    ensures Selected(from, where, args, table) == Chosen(p, table)
  {
    if table != [] { SelectedIsChosen(from, where, args, p, table[..|table| - 1]); }
  }

  /** Rows that pass exactly from number `n` on. */
  lemma {:induction false} PastFrom(ids: seq<Id>, tests: seq<Option<RowTest>>, n: nat, k: nat)
    requires k <= |ids| && forall m :: 0 < m <= |ids| ==> (Beyond(ids, tests, m) <==> m > n)
    ensures Past(ids, tests, k) == if k <= n then [] else ids[n..k]
  {
    if k > 0 { PastFrom(ids, tests, n, k - 1); }
  }

  lemma PastOne(ids: seq<Id>, anchor: Id, k: nat)
    requires k <= |ids|
    ensures var n := RowNumber(ids, anchor); Past(ids, Behind(anchor), k) == if k <= n then [] else ids[n..k]
  {
    forall m | 0 < m <= |ids| ensures Beyond(ids, Behind(anchor), m) <==> m > RowNumber(ids, anchor) {
      BeyondOne(ids, anchor, m);
    }
    PastFrom(ids, Behind(anchor), RowNumber(ids, anchor), k);
  }

  lemma BeyondOne(ids: seq<Id>, anchor: Id, k: nat)
    ensures Beyond(ids, Behind(anchor), k) <==> k > RowNumber(ids, anchor)
  {
    assert Behind(anchor)[0] == Some(RowTest(Greater, anchor));
  }

  // ---- scrolling ----

  /** The page after an anchor; from the start when the anchor is not, or no longer, among the rows. */
  function Page(ids: seq<Id>, anchor: Id, limit: int): seq<Id> { Take(ids[RowNumber(ids, anchor)..], limit) }

  /** A query with one `WithOffsetID` answers the page after it. */
  lemma QueryAnswersPage(q: B.Query, anchor: Id, args: seq<Arg>, p: Row -> bool, table: seq<Row>)
    requires Means(q.from, q.where, args, p) && q.offset == 0 && TestsOf(q.high, args) == Behind(anchor)
    ensures Answer(q, args, table) == Page(Chosen(p, table), anchor, q.limit)
  {
    SelectedIsChosen(q.from, q.where, args, p, table);
    PastOneAll(Chosen(p, table), anchor);
  }

  lemma PastOneAll(ids: seq<Id>, anchor: Id)
    ensures Drop(Past(ids, Behind(anchor), |ids|), 0) == ids[RowNumber(ids, anchor)..]
  {
    PastOne(ids, anchor, |ids|);
  }

  /** Without `WithOffsetID` offset and limit cut the page out. */
  lemma QueryAnswersSlice(q: B.Query, args: seq<Arg>, p: Row -> bool, table: seq<Row>)
    requires Means(q.from, q.where, args, p) && TestsOf(q.high, args) == []
    ensures Answer(q, args, table) == Take(Drop(Chosen(p, table), q.offset), q.limit)
  {
    SelectedIsChosen(q.from, q.where, args, p, table);
    PastNoneAll(Chosen(p, table));
  }

  lemma PastNoneAll(ids: seq<Id>)
    ensures Past(ids, [], |ids|) == ids
  {
    PastFrom(ids, [], 0, |ids|);
  }

  /** What a caller of the builder asked for. */
  ghost function Asked(user: Id, filters: seq<Filter>): Row -> bool {
    (row: Row) => row.userID == user && AllWanted(filters, row)
  }

  /** The request of a page that scrolls: the compiled query answers the page after the given id. */
  method ScrollQuery(builder: B.EntryQueryBuilder, id: Id, ghost table: seq<Row>) returns (q: B.Query)
    requires builder.Valid() && builder.anchors == [] && builder.offset == 0
    modifies builder
    ensures builder.Valid() && builder.filters == old(builder.filters) && builder.limit == old(builder.limit)
    ensures var ids := Chosen(Asked(builder.user, builder.filters), table);
      id != 0 || 0 !in ids ==> Answer(q, builder.args, table) == Page(ids, id, builder.limit)
  {
    builder.WithOffsetID(id);
    q := builder.EntriesQuery();
    ghost var p := Asked(builder.user, builder.filters);
    assert Means(q.from, q.where, builder.args, p);
    if id == 0 {
      QueryAnswersSlice(q, builder.args, p, table);
    } else {
      assert TestsOf(q.high, builder.args) == Behind(id);
      QueryAnswersPage(q, id, builder.args, p, table);
    }
  }

  /** What a reader has seen; `anchor` is the last id of the last page, 0 before the first. */
  datatype Scroll = Scroll(ids: seq<Id>, anchor: Id, shown: set<Id>)

  datatype Step =
    | Leave(ids: seq<Id>)   // rows leave the result
    | Next(limit: int)      // the next page is fetched

  /** The total order of the query. */
  ghost predicate Sorted(ids: seq<Id>, rank: Id -> int) {
    forall i, j :: 0 <= i < j < |ids| ==> rank(ids[i]) < rank(ids[j])
  }

  ghost predicate Enabled(s: Scroll, step: Step, rank: Id -> int) {
    match step
    case Leave(ids) => Sorted(ids, rank) && forall i :: 0 <= i < |ids| ==> ids[i] in s.ids
    case Next(limit) => limit > 0
  }

  function Do(s: Scroll, step: Step): Scroll {
    match step
    case Leave(ids) => s.(ids := ids)
    case Next(limit) => WithPage(s, Page(s.ids, s.anchor, limit))
  }

  function WithPage(s: Scroll, page: seq<Id>): Scroll {
    Scroll(s.ids, if page == [] then s.anchor else page[|page| - 1], s.shown + Elements(page))
  }

  function Elements(ids: seq<Id>): set<Id> { set i | 0 <= i < |ids| :: ids[i] }

  ghost predicate NothingSkipped(s: Scroll, rank: Id -> int) {
    && Sorted(s.ids, rank) && 0 !in s.ids
    && (s.anchor != 0 ==> forall i :: 0 <= i < |s.ids| && rank(s.ids[i]) <= rank(s.anchor) ==> s.ids[i] in s.shown)
  }

  /** A page ends where everything up to it has been shown, whether the anchor was still there or not. */
  lemma NextSkipsNothing(s: Scroll, limit: int, rank: Id -> int)
    requires NothingSkipped(s, rank) && limit > 0
    ensures NothingSkipped(Do(s, Next(limit)), rank)
  {
    var n := RowNumber(s.ids, s.anchor);
    PageIsSlice(s.ids, s.anchor, limit);
    forall i | 0 <= i < n ensures s.ids[i] in s.shown { BeforeAnchor(s, rank, i); }
    PageShown(s, n, Page(s.ids, s.anchor, limit), rank);
  }

  /** A page that starts behind rows already shown. */
  lemma PageShown(s: Scroll, n: nat, page: seq<Id>, rank: Id -> int)
    requires NothingSkipped(s, rank) && n + |page| <= |s.ids|
    requires (forall i :: 0 <= i < n ==> s.ids[i] in s.shown) && forall i :: 0 <= i < |page| ==> page[i] == s.ids[n + i]
    ensures NothingSkipped(WithPage(s, page), rank)
  {
    forall i | 0 <= i < |s.ids| && page != [] && rank(s.ids[i]) <= rank(page[|page| - 1])
      ensures s.ids[i] in s.shown + Elements(page)
    {
      UpToPage(s.ids, n, page, rank, i);
      if i >= n { assert page[i - n] == s.ids[i]; }
    }
  }

  /** In the order of the query a row up to the last one of a page is before the page or on it. */
  lemma UpToPage(ids: seq<Id>, n: nat, page: seq<Id>, rank: Id -> int, i: nat)
    requires Sorted(ids, rank) && page != [] && n + |page| <= |ids| && page[|page| - 1] == ids[n + |page| - 1]
    requires i < |ids| && rank(ids[i]) <= rank(page[|page| - 1])
    ensures i < n + |page|
  {
  }

  lemma BeforeAnchor(s: Scroll, rank: Id -> int, i: nat)
    requires NothingSkipped(s, rank) && i < RowNumber(s.ids, s.anchor)
    ensures s.ids[i] in s.shown
  {
    var n := RowNumber(s.ids, s.anchor);
    assert s.ids[n - 1] == s.anchor;
    assert i == n - 1 || rank(s.ids[i]) < rank(s.ids[n - 1]);
  }

  lemma PageIsSlice(ids: seq<Id>, anchor: Id, limit: int)
    ensures var n, page := RowNumber(ids, anchor), Page(ids, anchor, limit);
      n + |page| <= |ids| && forall i :: 0 <= i < |page| ==> page[i] == ids[n + i]
    ensures var rest := |ids| - RowNumber(ids, anchor);
      limit > 0 ==> |Page(ids, anchor, limit)| == if limit < rest then limit else rest
  {
  }

  ghost predicate IsRun(s: Scroll, steps: seq<Step>, rank: Id -> int)
    decreases |steps|
  {
    steps == [] || (Enabled(s, steps[0], rank) && IsRun(Do(s, steps[0]), steps[1..], rank))
  }

  function After(s: Scroll, steps: seq<Step>): Scroll
    decreases |steps|
  {
    if steps == [] then s else After(Do(s, steps[0]), steps[1..])
  }

  /** However requests and departures interleave, every remaining row up to the anchor has been shown. */
  lemma {:induction false} RunSkipsNothing(s: Scroll, steps: seq<Step>, rank: Id -> int)
    requires NothingSkipped(s, rank) && IsRun(s, steps, rank)
    ensures NothingSkipped(After(s, steps), rank)
    decreases |steps|
  {
    if steps != [] {
      if steps[0].Next? {
        NextSkipsNothing(s, steps[0].limit, rank);
      }
      RunSkipsNothing(Do(s, steps[0]), steps[1..], rank);
    }
  }

  /** When a page comes back short, every row still in the result has been shown. */
  lemma ShortPageIsTheEnd(ids: seq<Id>, steps: seq<Step>, limit: int, rank: Id -> int, id: Id)
    requires Sorted(ids, rank) && 0 !in ids && limit > 0
    requires var s := Scroll(ids, 0, {});
      IsRun(s, steps, rank) && |Page(After(s, steps).ids, After(s, steps).anchor, limit)| < limit
    requires id in After(Scroll(ids, 0, {}), steps).ids
    ensures id in Do(After(Scroll(ids, 0, {}), steps), Next(limit)).shown
  {
    var s := After(Scroll(ids, 0, {}), steps);
    RunSkipsNothing(Scroll(ids, 0, {}), steps, rank);
    ShortPageShowsRest(s, limit, rank, id);
  }

  lemma ShortPageShowsRest(s: Scroll, limit: int, rank: Id -> int, id: Id)
    requires NothingSkipped(s, rank) && limit > 0 && |Page(s.ids, s.anchor, limit)| < limit && id in s.ids
    ensures id in Do(s, Next(limit)).shown
  {
  }

  // ---- Google Reader continuations ----

  /** The limit the builder ends up with. */
  function Effective(count: int): int { if 1 <= count <= B.MAX_ENTRIES_LIMIT then count else B.MAX_ENTRIES_LIMIT }

  datatype Modifiers = Modifiers(count: int, offset: int, direction: string, startTime: int, stopTime: int)

  datatype Response = Response(itemRefs: seq<Id>, continuation: int)

  function Times(rm: Modifiers): seq<Filter> {
    (if rm.startTime > 0 then [AfterPublishedDate(rm.startTime)] else [])
    + (if rm.stopTime > 0 then [BeforePublishedDate(rm.stopTime)] else [])
  }

  /** Streams are sorted by date, in the direction asked for; any other direction leaves them unsorted. */
  function ByDate(direction: string): seq<Sort> {
    if B.IsAsc(direction) then [By("published_at", "ASC")]
    else if B.IsDesc(direction) then [By("published_at", "DESC")] else []
  }

  /** The calls `makeStreamIDResp` adds to the builder before it queries. */
  method PrepareStream(builder: B.EntryQueryBuilder, rm: Modifiers)
    requires builder.Valid() && builder.limit == B.MAX_ENTRIES_LIMIT && builder.offset == 0
    modifies builder
    ensures builder.Valid()
    ensures builder.limit == Effective(rm.count) && builder.offset == if rm.offset > 0 then rm.offset else 0
    ensures builder.filters == old(builder.filters) + Times(rm) && builder.anchors == old(builder.anchors)
    ensures builder.sortExpressions == old(builder.sortExpressions) + ByDate(rm.direction)
  {
    builder.WithLimit(rm.count);
    builder.WithOffset(rm.offset);
    builder.WithSorting("published_at", rm.direction);
    WithTimes(builder, rm);
  }

  method WithTimes(builder: B.EntryQueryBuilder, rm: Modifiers)
    requires builder.Valid()
    modifies builder`args, builder`conditions, builder`filters, builder`atoms, builder`owners
    ensures builder.Valid() && builder.filters == old(builder.filters) + Times(rm)
  {
    ghost var before := builder.filters;
    if rm.startTime > 0 {
      builder.AfterPublishedDate(rm.startTime);
    }
    ghost var between := builder.filters;
    if rm.stopTime > 0 {
      builder.BeforePublishedDate(rm.stopTime);
    }
    TimesInTurn(before, between, builder.filters, rm);
  }

  lemma TimesInTurn(before: seq<Filter>, between: seq<Filter>, after: seq<Filter>, rm: Modifiers)
    requires between == if rm.startTime > 0 then before + [AfterPublishedDate(rm.startTime)] else before
    requires after == if rm.stopTime > 0 then between + [BeforePublishedDate(rm.stopTime)] else between
    ensures after == before + Times(rm)
  {
  }

  /** The requests on times keep the rows published after the start and before the stop, where these are given. */
  lemma TimesWanted(fs: seq<Filter>, rm: Modifiers, row: Row)
    ensures AllWanted(fs + Times(rm), row) <==>
      && AllWanted(fs, row)
      && (rm.startTime > 0 ==> row.publishedAt > rm.startTime)
      && (rm.stopTime > 0 ==> row.publishedAt < rm.stopTime)
  {
    var a := if rm.startTime > 0 then fs + [AfterPublishedDate(rm.startTime)] else fs;
    var b := if rm.stopTime > 0 then a + [BeforePublishedDate(rm.stopTime)] else a;
    TimesInTurn(fs, a, b, rm);
    if rm.startTime > 0 { assert a[..|a| - 1] == fs; }
    if rm.stopTime > 0 { assert b[..|b| - 1] == a; }
  }

  /** The answer, from what `GetEntryIDs` and `CountEntries` returned. */
  function StreamResponse(entryIDs: seq<Id>, totalEntries: int, offset: int): Response {
    Response(entryIDs, if |entryIDs| + offset < totalEntries then |entryIDs| + offset else 0)
  }

  /** One request against a fixed table of matching ids. */
  function Stream(ids: seq<Id>, count: int, offset: nat): Response {
    StreamResponse(Take(Drop(ids, offset), Effective(count)), |ids|, offset)
  }

  /** The queries of a prepared builder give that response. */
  lemma StreamIsQueried(q: B.Query, all: B.Query, args: seq<Arg>, p: Row -> bool, table: seq<Row>, count: int,
      offset: nat)
    requires Means(q.from, q.where, args, p) && q.high == "" && q.limit == Effective(count) && q.offset == offset
    requires Means(all.from, all.where, args, p)
    ensures var ids := Chosen(p, table);
      StreamResponse(Answer(q, args, table), |Selected(all.from, all.where, args, table)|, offset) ==
        Stream(ids, count, offset)
  {
    SelectedIsChosen(all.from, all.where, args, p, table);
    QueryAnswersSlice(q, args, p, table);
  }

  /**
   A request as a whole: calls, both queries and the response. The builder comes as a stream handler
   leaves it, which asks neither for globally visible categories nor for rows after an id.
   */
  method StreamIDs(builder: B.EntryQueryBuilder, rm: Modifiers, ghost table: seq<Row>)
    returns (ids: B.Query, count: B.Query, ghost r: Response)
    requires builder.Valid() && builder.limit == B.MAX_ENTRIES_LIMIT && builder.offset == 0 && rm.offset >= 0
    requires builder.anchors == [] && CategoryVisible !in builder.filters
    modifies builder
    ensures builder.Valid() && builder.filters == old(builder.filters) + Times(rm)
    ensures ids.sorts == old(builder.sortExpressions) + ByDate(rm.direction)
    ensures Exactly(B.Uses(ids), |builder.args|) && Exactly(B.Uses(count), |builder.args|)
    ensures r == StreamResponse(Answer(ids, builder.args, table),
      |Selected(count.from, count.where, builder.args, table)|, rm.offset)
    ensures r == Stream(Chosen(Asked(builder.user, builder.filters), table), rm.count, rm.offset)
  {
    PrepareStream(builder, rm);
    assert CategoryVisible !in builder.filters;
    ids := builder.EntryIDsQuery();
    count := builder.CountQuery();
    ghost var p := Asked(builder.user, builder.filters);
    assert Means(ids.from, ids.where, builder.args, p) && Means(count.from, count.where, builder.args, p);
    r := StreamResponse(Answer(ids, builder.args, table), |Selected(count.from, count.where, builder.args, table)|,
      rm.offset);
    StreamIsQueried(ids, count, builder.args, p, table, rm.count, rm.offset);
  }

  /** A continuation asks for a later offset, inside the table. */
  lemma ContinuationAdvances(ids: seq<Id>, count: int, offset: nat)
    requires offset <= |ids|
    ensures var r := Stream(ids, count, offset);
      && r.itemRefs == ids[offset..offset + |r.itemRefs|]
      && |r.itemRefs| <= (if 1 <= count <= 1000 then count else 1000)
      && (r.continuation != 0 ==> |r.itemRefs| == if 1 <= count <= 1000 then count else 1000)
      && (r.continuation == 0 ==> offset + |r.itemRefs| == |ids|)
      && (r.continuation != 0 ==> offset < r.continuation == offset + |r.itemRefs| < |ids|)
  {
  }

  /** The pages of a reader who asks for `counts(k)` items in request `k` and follows each continuation. */
  function Follow(ids: seq<Id>, counts: nat -> int, k: nat, offset: nat): seq<seq<Id>>
    requires offset <= |ids|
    decreases |ids| - offset
  {
    ContinuationAdvances(ids, counts(k), offset);
    var r := Stream(ids, counts(k), offset);
    [r.itemRefs] + if r.continuation == 0 then [] else Follow(ids, counts, k + 1, r.continuation)
  }

  function Concat(pages: seq<seq<Id>>): seq<Id> { if pages == [] then [] else pages[0] + Concat(pages[1..]) }

  /** From the start, whatever is asked for each time, the pages are the whole list, once and in order. */
  lemma {:induction false} FollowingCollectsAll(ids: seq<Id>, counts: nat -> int, k: nat, offset: nat)
    requires offset <= |ids|
    ensures Concat(Follow(ids, counts, k, offset)) == ids[offset..]
    ensures |Follow(ids, counts, k, offset)| <= |ids| - offset + 1
    decreases |ids| - offset
  {
    ContinuationAdvances(ids, counts(k), offset);
    var r := Stream(ids, counts(k), offset);
    var rest := if r.continuation == 0 then [] else Follow(ids, counts, k + 1, r.continuation);
    if r.continuation != 0 { FollowingCollectsAll(ids, counts, k + 1, r.continuation); }
    ConcatFirst(r.itemRefs, rest);
    CutAt(ids, offset, offset + |r.itemRefs|);
  }

  lemma ConcatFirst(page: seq<Id>, rest: seq<seq<Id>>)
    ensures Concat([page] + rest) == page + Concat(rest)
  {
  }

  lemma CutAt(ids: seq<Id>, a: nat, b: nat)
    requires a <= b <= |ids|
    ensures ids[a..] == ids[a..b] + ids[b..]
  {
  }
}
