/**
 The entry query builder (internal/storage/entry_query_builder.go): every `With*` call appends
 numbered conditions and arguments; the build methods join them. `Valid` says that the texts mean
 what the calls so far asked for, and every method keeps that.
 */
module QueryBuilder {
  import opened Prelude
  import opened Numerals
  import opened QueryText
  import opened SqlReading
  import opened QueryPlan

  const MAX_ENTRIES_LIMIT: int := 1000

  /** A query text in its parts. */
  datatype Query = Query(from: Scope, where: string, sorts: seq<Sort>, high: string, limit: int, offset: int,
    numbered: bool)

  /** The aliases of entries, feeds and categories, as `GetEntries` and `CountEntries` join them. */
  const ENTRIES_FROM: Scope := {'e', 'f', 'c'}

  /** `GetEntryIDs` joins feeds only. */
  const IDS_FROM: Scope := {'e', 'f'}

  /** The placeholder numbers anywhere in the query. */
  ghost function Uses(q: Query): set<nat> {
    var low := Refs(Split(q.where)) + RankRefs(q.sorts);
    if q.high == "" then low else low + Refs(Split(q.high))
  }

  /** strings.EqualFold with an ASCII word of which only "s" has a second lower-case form. */
  function Fold(s: string): string { if s == [] then [] else [FoldChar(s[0])] + Fold(s[1..]) }

  function FoldChar(c: char): char {
    if c == '\U{017F}' then 's' else if 'A' <= c <= 'Z' then c - 'A' + 'a' else c
  }

  /** The character is an S in some case. */
  predicate IsS(c: char) { c == 's' || c == 'S' || c == '\U{017F}' }

  predicate IsAsc(s: string) {
    |s| == 3 && (s[0] == 'a' || s[0] == 'A') && IsS(s[1]) && (s[2] == 'c' || s[2] == 'C')
  }

  predicate IsDesc(s: string) {
    |s| == 4 && (s[0] == 'd' || s[0] == 'D') && (s[1] == 'e' || s[1] == 'E') && IsS(s[2])
      && (s[3] == 'c' || s[3] == 'C')
  }

  lemma FoldsTo(s: string)
    ensures Fold(s) == "asc" <==> IsAsc(s)
    ensures Fold(s) == "desc" <==> IsDesc(s)
  {
    FoldEach(s);
    if IsAsc(s) { assert Fold(s) == ['a', 's', 'c']; }
    if IsDesc(s) { assert Fold(s) == ['d', 'e', 's', 'c']; }
  }

  lemma {:induction false} FoldEach(s: string)
    ensures |Fold(s)| == |s| && forall i :: 0 <= i < |s| ==> Fold(s)[i] == FoldChar(s[i])
  {
    if s != [] { FoldEach(s[1..]); }
  }

  class EntryQueryBuilder {
    ghost const user: Id
    var args: seq<Arg>
    var conditions: seq<string>
    var sortExpressions: seq<Sort>
    var limit: int
    var offset: int
    var numberedRows: bool
    var highConds: seq<string>

    /** The calls so far, and how they were compiled. */
    ghost var filters: seq<Filter>
    ghost var atoms: seq<Atom>
    ghost var anchors: seq<Anchor>
    ghost var owners: seq<Owner>

    ghost predicate Valid()
      reads this
    {
      && Compiled(user, conditions, args, atoms, filters)
      && |owners| == |args| && Placed(owners, atoms, anchors)
      && WritesHigh(highConds, anchors, args)
      && SortsOK(sortExpressions, owners)
      && 1 <= limit <= MAX_ENTRIES_LIMIT && offset >= 0
      && (numberedRows <==> highConds != [])
    }

    constructor (userID: Id)
      ensures Valid() && user == userID && filters == [] && anchors == [] && limit == MAX_ENTRIES_LIMIT && offset == 0
      ensures sortExpressions == [] && highConds == []
    {
      user := userID;
      args := [Num(userID)];
      conditions := ["e.user_id = $1"];
      sortExpressions := [];
      limit, offset := MAX_ENTRIES_LIMIT, 0;
      numberedRows := false;
      highConds := [];
      filters, atoms, anchors, owners := [], [Atom(OwnedBy, 1)], [], [OfCond(0)];
      new;
      FirstCondition(userID);
    }

    method AppendCondition(prefix: string, arg: Option<Arg>, suffix: string) returns (argPos: string)
      modifies this`args, this`conditions
      ensures args == old(args) + ArgsOf(arg)
      ensures argPos == if arg.Some? then Render(|args|, 10) else ""
      ensures conditions == old(conditions) + [Numbered(prefix, arg, suffix, |args|)]
    {
      if arg.None? {
        conditions := conditions + [prefix];
        return "";
      }
      args := args + [arg.value];
      argPos := Render(|args|, 10);
      var s := prefix + argPos;
      if suffix != "" {
        s := s + suffix;
      }
      assert s == prefix + argPos + suffix;
      conditions := conditions + [s];
    }

    /** Appending this condition would serve request `f`. */
    ghost predicate Adds(prefix: string, arg: Option<Arg>, suffix: string, op: Op, f: Filter)
      reads this
    {
      var args' := args + ArgsOf(arg);
      && (TakesArg(op) <==> arg.Some?)
      && Compiled(user, conditions + [Numbered(prefix, arg, suffix, |args'|)], args', atoms + [Atom(op, |args'|)],
        filters + [f])
    }

    lemma Asks(op: Op, arg: Option<Arg>, f: Filter)
      requires Valid() && Suits(op, arg, f)
      ensures Adds(Prefix(op), arg, Suffix(op), op, f)
    {
      SuitsServes(op, arg, f);
      AddsCondition(user, conditions, args, atoms, filters, op, arg, f);
    }

    method Compile(prefix: string, arg: Option<Arg>, suffix: string, ghost op: Op, ghost f: Filter)
        returns (argPos: string)
      requires Adds(prefix, arg, suffix, op, f)
      modifies this`args, this`conditions, this`filters, this`atoms
      ensures Compiled(user, conditions, args, atoms, filters) && filters == old(filters) + [f]
      ensures args == old(args) + ArgsOf(arg) && atoms == old(atoms) + [Atom(op, |args|)]
      ensures arg.Some? ==> argPos == Render(|args|, 10)
    {
      argPos := AppendCondition(prefix, arg, suffix);
      atoms, filters := atoms + [Atom(op, |args|)], filters + [f];
    }

    method Append(prefix: string, arg: Option<Arg>, suffix: string, ghost op: Op, ghost f: Filter)
        returns (argPos: string)
      requires Valid() && Adds(prefix, arg, suffix, op, f)
      modifies this`args, this`conditions, this`filters, this`atoms, this`owners
      ensures Valid() && filters == old(filters) + [f]
      ensures args == old(args) + ArgsOf(arg)
      ensures arg.Some? ==> argPos == Render(|args|, 10) && owners == old(owners) + [OfCond(|old(atoms)|)]
    {
      ghost var owner := if arg.Some? then [OfCond(|atoms|)] else [];
      PlacesCondition(owners, atoms, anchors, Atom(op, |args + ArgsOf(arg)|));
      OthersStay(highConds, anchors, args, ArgsOf(arg), sortExpressions, owners, owner);
      argPos := Compile(prefix, arg, suffix, op, f);
      Own(owner);
    }

    /** The condition just compiled owns the argument it brought. */
    ghost method Own(newer: seq<Owner>)
      requires Compiled(user, conditions, args, atoms, filters)
      requires |owners + newer| == |args| && Placed(owners + newer, atoms, anchors)
      requires WritesHigh(highConds, anchors, args) && SortsOK(sortExpressions, owners + newer)
      requires 1 <= limit <= MAX_ENTRIES_LIMIT && offset >= 0 && (numberedRows <==> highConds != [])
      modifies this`owners
      ensures Valid() && owners == old(owners) + newer
    {
      owners := owners + newer;
    }

    method WithAuthor(name: string)
      requires Valid()
      modifies this`args, this`conditions, this`filters, this`atoms, this`owners
      ensures Valid() && filters == old(filters) + [ByAuthor(name)]
    {
      Asks(AuthorIs, Some(Text(name)), ByAuthor(name));
      var _ := Append(Prefix(AuthorIs), Some(Text(name)), Suffix(AuthorIs), AuthorIs, ByAuthor(name));
    }

    method WithStarred(starred: bool)
      requires Valid()
      modifies this`args, this`conditions, this`filters, this`atoms, this`owners
      ensures Valid() && filters == old(filters) + [BeingStarred(starred)]
    {
      if starred {
        Asks(Starred, None, BeingStarred(starred));
        var _ := Append(Prefix(Starred), None, Suffix(Starred), Starred, BeingStarred(starred));
      } else {
        Asks(NotStarred, None, BeingStarred(starred));
        var _ := Append(Prefix(NotStarred), None, Suffix(NotStarred), NotStarred, BeingStarred(starred));
      }
    }

    method BeforeChangedDate(date: int)
      requires Valid()
      modifies this`args, this`conditions, this`filters, this`atoms, this`owners
      ensures Valid() && filters == old(filters) + [Filter.BeforeChangedDate(date)]
    {
      Asks(ChangedBefore, Some(Date(date)), Filter.BeforeChangedDate(date));
      var _ := Append(Prefix(ChangedBefore), Some(Date(date)), Suffix(ChangedBefore), ChangedBefore,
        Filter.BeforeChangedDate(date));
    }

    method AfterChangedDate(date: int)
      requires Valid()
      modifies this`args, this`conditions, this`filters, this`atoms, this`owners
      ensures Valid() && filters == old(filters) + [Filter.AfterChangedDate(date)]
    {
      Asks(ChangedAfter, Some(Date(date)), Filter.AfterChangedDate(date));
      var _ := Append(Prefix(ChangedAfter), Some(Date(date)), Suffix(ChangedAfter), ChangedAfter,
        Filter.AfterChangedDate(date));
    }

    method BeforePublishedDate(date: int)
      requires Valid()
      modifies this`args, this`conditions, this`filters, this`atoms, this`owners
      ensures Valid() && filters == old(filters) + [Filter.BeforePublishedDate(date)]
    {
      Asks(PublishedBefore, Some(Date(date)), Filter.BeforePublishedDate(date));
      var _ := Append(Prefix(PublishedBefore), Some(Date(date)), Suffix(PublishedBefore), PublishedBefore,
        Filter.BeforePublishedDate(date));
    }

    method AfterPublishedDate(date: int)
      requires Valid()
      modifies this`args, this`conditions, this`filters, this`atoms, this`owners
      ensures Valid() && filters == old(filters) + [Filter.AfterPublishedDate(date)]
    {
      Asks(PublishedAfter, Some(Date(date)), Filter.AfterPublishedDate(date));
      var _ := Append(Prefix(PublishedAfter), Some(Date(date)), Suffix(PublishedAfter), PublishedAfter,
        Filter.AfterPublishedDate(date));
    }

    method BeforeEntryID(id: Id)
      requires Valid()
      modifies this`args, this`conditions, this`filters, this`atoms, this`owners
      ensures Valid() && filters == old(filters) + [Filter.BeforeEntryID(id)]
    {
      if id != 0 {
        Asks(IdBelow, Some(Num(id)), Filter.BeforeEntryID(id));
        var _ := Append(Prefix(IdBelow), Some(Num(id)), Suffix(IdBelow), IdBelow, Filter.BeforeEntryID(id));
      } else {
        AddsNothing(user, conditions, args, atoms, filters, Filter.BeforeEntryID(id));
        filters := filters + [Filter.BeforeEntryID(id)];
      }
    }

    method AfterEntryID(id: Id)
      requires Valid()
      modifies this`args, this`conditions, this`filters, this`atoms, this`owners
      ensures Valid() && filters == old(filters) + [Filter.AfterEntryID(id)]
    {
      if id != 0 {
        Asks(IdAbove, Some(Num(id)), Filter.AfterEntryID(id));
        var _ := Append(Prefix(IdAbove), Some(Num(id)), Suffix(IdAbove), IdAbove, Filter.AfterEntryID(id));
      } else {
        AddsNothing(user, conditions, args, atoms, filters, Filter.AfterEntryID(id));
        filters := filters + [Filter.AfterEntryID(id)];
      }
    }

    method WithEntryID(id: Id)
      requires Valid()
      modifies this`args, this`conditions, this`filters, this`atoms, this`owners
      ensures Valid() && filters == old(filters) + [InEntryIDs([id])]
    {
      if id != 0 {
        Asks(IdIs, Some(Num(id)), InEntryIDs([id]));
        var _ := Append(Prefix(IdIs), Some(Num(id)), Suffix(IdIs), IdIs, InEntryIDs([id]));
      } else {
        AddsNothing(user, conditions, args, atoms, filters, InEntryIDs([id]));
        filters := filters + [InEntryIDs([id])];
      }
    }

    method WithEntryIDs(ids: seq<Id>)
      requires Valid()
      modifies this`args, this`conditions, this`filters, this`atoms, this`owners
      ensures Valid() && filters == old(filters) + [InEntryIDs(ids)]
    {
      if |ids| == 0 {
        AddsNothing(user, conditions, args, atoms, filters, InEntryIDs(ids));
        filters := filters + [InEntryIDs(ids)];
      } else if |ids| == 1 {
        assert ids == [ids[0]];
        WithEntryID(ids[0]);
      } else {
        Asks(IdAmong, Some(Nums(ids)), InEntryIDs(ids));
        var _ := Append(Prefix(IdAmong), Some(Nums(ids)), Suffix(IdAmong), IdAmong, InEntryIDs(ids));
      }
    }

    method WithFeedID(id: Id)
      requires Valid()
      modifies this`args, this`conditions, this`filters, this`atoms, this`owners
      ensures Valid() && filters == old(filters) + [OfFeed(id)]
    {
      if id > 0 {
        Asks(FeedIs, Some(Num(id)), OfFeed(id));
        var _ := Append(Prefix(FeedIs), Some(Num(id)), Suffix(FeedIs), FeedIs, OfFeed(id));
      } else {
        AddsNothing(user, conditions, args, atoms, filters, OfFeed(id));
        filters := filters + [OfFeed(id)];
      }
    }

    method WithCategoryID(id: Id)
      requires Valid()
      modifies this`args, this`conditions, this`filters, this`atoms, this`owners
      ensures Valid() && filters == old(filters) + [OfCategory(id)]
    {
      if id > 0 {
        Asks(CategoryIs, Some(Num(id)), OfCategory(id));
        var _ := Append(Prefix(CategoryIs), Some(Num(id)), Suffix(CategoryIs), CategoryIs, OfCategory(id));
      } else {
        AddsNothing(user, conditions, args, atoms, filters, OfCategory(id));
        filters := filters + [OfCategory(id)];
      }
    }

    method WithStatus(status: string)
      requires Valid()
      modifies this`args, this`conditions, this`filters, this`atoms, this`owners
      ensures Valid() && filters == old(filters) + [InStatuses([status])]
    {
      if status != "" {
        Asks(StatusIs, Some(Text(status)), InStatuses([status]));
        var _ := Append(Prefix(StatusIs), Some(Text(status)), Suffix(StatusIs), StatusIs, InStatuses([status]));
      } else {
        AddsNothing(user, conditions, args, atoms, filters, InStatuses([status]));
        filters := filters + [InStatuses([status])];
      }
    }

    method WithStatuses(statuses: seq<string>)
      requires Valid()
      modifies this`args, this`conditions, this`filters, this`atoms, this`owners
      ensures Valid() && filters == old(filters) + [InStatuses(statuses)]
    {
      if |statuses| == 0 {
        AddsNothing(user, conditions, args, atoms, filters, InStatuses(statuses));
        filters := filters + [InStatuses(statuses)];
      } else if |statuses| == 1 {
        assert statuses == [statuses[0]];
        WithStatus(statuses[0]);
      } else {
        Asks(StatusAmong, Some(Texts(statuses)), InStatuses(statuses));
        var _ := Append(Prefix(StatusAmong), Some(Texts(statuses)), Suffix(StatusAmong), StatusAmong,
          InStatuses(statuses));
      }
    }

    method WithTags(tags: seq<string>)
      requires Valid()
      modifies this`args, this`conditions, this`filters, this`atoms, this`owners
      ensures Valid() && filters == old(filters) + [TaggedWith(tags)]
    {
      if |tags| != 0 {
        Asks(TagsInclude, Some(Texts(tags)), TaggedWith(tags));
        var _ := Append(Prefix(TagsInclude), Some(Texts(tags)), Suffix(TagsInclude), TagsInclude, TaggedWith(tags));
      } else {
        AddsNothing(user, conditions, args, atoms, filters, TaggedWith(tags));
        filters := filters + [TaggedWith(tags)];
      }
    }

    method WithoutStatus(status: string)
      requires Valid()
      modifies this`args, this`conditions, this`filters, this`atoms, this`owners
      ensures Valid() && filters == old(filters) + [NotInStatus(status)]
    {
      if status != "" {
        Asks(StatusIsNot, Some(Text(status)), NotInStatus(status));
        var _ := Append(Prefix(StatusIsNot), Some(Text(status)), Suffix(StatusIsNot), StatusIsNot, NotInStatus(status));
      } else {
        AddsNothing(user, conditions, args, atoms, filters, NotInStatus(status));
        filters := filters + [NotInStatus(status)];
      }
    }

    method WithGloballyVisible()
      requires Valid()
      modifies this`args, this`conditions, this`filters, this`atoms, this`owners
      ensures Valid() && filters == old(filters) + [CategoryVisible, FeedVisible]
    {
      Asks(CategoryShown, None, CategoryVisible);
      var _ := Append(Prefix(CategoryShown), None, Suffix(CategoryShown), CategoryShown, CategoryVisible);
      WithFeedVisible();
    }

    method WithFeedVisible()
      requires Valid()
      modifies this`args, this`conditions, this`filters, this`atoms, this`owners
      ensures Valid() && filters == old(filters) + [FeedVisible]
    {
      Asks(FeedShown, None, FeedVisible);
      var _ := Append(Prefix(FeedShown), None, Suffix(FeedShown), FeedShown, FeedVisible);
    }

    /** Also sorts by rank, with the placeholder of the condition. */
    method WithSearchQuery(query: string)
      requires Valid()
      modifies this`args, this`conditions, this`filters, this`atoms, this`owners, this`sortExpressions
      ensures Valid() && filters == old(filters) + [Matching(query)]
      ensures query == "" ==> sortExpressions == old(sortExpressions)
      ensures query != "" ==>
        sortExpressions == old(sortExpressions) + [Rank(Render(|args|, 10))] && args == old(args) + [Text(query)]
    {
      if query == "" {
        AddsNothing(user, conditions, args, atoms, filters, Matching(query));
        filters := filters + [Matching(query)];
      } else {
        var argPos := WithMatch(query);
        WithRank(argPos);
      }
    }

    /** Sorts by the rank of a search, which is some condition's argument. */
    method WithRank(argPos: string)
      requires Valid() && args != [] && argPos == Render(|args|, 10) && owners[|args| - 1].OfCond?
      modifies this`sortExpressions
      ensures Valid() && sortExpressions == old(sortExpressions) + [Rank(argPos)]
    {
      RankAdded(sortExpressions, owners, |args|);
      sortExpressions := sortExpressions + [Rank(argPos)];
    }

    method WithMatch(query: string) returns (argPos: string)
      requires Valid() && query != ""
      modifies this`args, this`conditions, this`filters, this`atoms, this`owners
      ensures Valid() && filters == old(filters) + [Matching(query)]
      ensures args == old(args) + [Text(query)] && argPos == Render(|args|, 10) && owners[|args| - 1].OfCond?
    {
      Asks(Search, Some(Text(query)), Matching(query));
      argPos := Append(Prefix(Search), Some(Text(query)), Suffix(Search), Search, Matching(query));
    }

    method WithSorting(column: string, direction: string)
      requires Valid()
      modifies this`sortExpressions
      ensures Valid()
      ensures sortExpressions == old(sortExpressions)
        + if IsAsc(direction) then [By(column, "ASC")] else if IsDesc(direction) then [By(column, "DESC")] else []
    {
      var normal := NormalDirection(direction);
      if normal.Some? { AddSort(column, normal.value); }
    }

    method AddSort(column: string, direction: string)
      requires Valid()
      modifies this`sortExpressions
      ensures Valid() && sortExpressions == old(sortExpressions) + [By(column, direction)]
    {
      sortExpressions := sortExpressions + [By(column, direction)];
    }

    method WithLimit(limit: int)
      requires Valid()
      modifies this`limit
      ensures Valid() && this.limit == if 1 <= limit <= MAX_ENTRIES_LIMIT then limit else old(this.limit)
    {
      if limit > 0 && limit <= MAX_ENTRIES_LIMIT {
        this.limit := limit;
      }
    }

    method WithOffset(offset: int)
      requires Valid()
      modifies this`offset
      ensures Valid() && this.offset == if offset > 0 then offset else old(this.offset)
    {
      if offset > 0 {
        this.offset := offset;
      }
    }

    method WithOffsetID(id: Id)
      requires Valid()
      modifies this`args, this`highConds, this`numberedRows, this`anchors, this`owners
      ensures Valid()
      ensures id == 0 ==> args == old(args) && anchors == old(anchors) && highConds == old(highConds)
      ensures id != 0 ==> anchors == old(anchors) + [Anchor(id, |args|)]
    {
      if id != 0 {
        AddAnchor(id);
      }
    }

    method AddAnchor(id: Id)
      requires Valid()
      modifies this`args, this`highConds, this`numberedRows, this`anchors, this`owners
      ensures Valid() && anchors == old(anchors) + [Anchor(id, |args|)]
    {
      OffsetAdded(user, conditions, highConds, args, atoms, anchors, owners, sortExpressions, filters, id);
      args := args + [Num(id)];
      highConds := highConds + [High(|args|)];
      numberedRows := true;
      anchors, owners := anchors + [Anchor(id, |args|)], owners + [OfHigh(|anchors|)];
    }

    /**
     On every row the WHERE text says what the calls asked for, if the FROM clause binds the tables;
     a request on categories is rejected without them.
     */
    method BuildCondition() returns (where: string)
      requires Valid()
      ensures Split(where) == conditions
      ensures forall row ::
        EvalWhere(where, ENTRIES_FROM, args, row) == Some(row.userID == user && AllWanted(filters, row))
      ensures forall row ::
        EvalWhere(where, IDS_FROM, args, row)
        == if CategoryVisible in filters then None else Some(row.userID == user && AllWanted(filters, row))
    {
      where := Join(conditions, AND);
      CondsComeApart(conditions, atoms);
      forall row
        ensures EvalWhere(where, ENTRIES_FROM, args, row) == Some(row.userID == user && AllWanted(filters, row))
      {
        WhereEvaluates(conditions, atoms, ENTRIES_FROM, args, row);
      }
      forall row
        ensures EvalWhere(where, IDS_FROM, args, row)
             == if CategoryVisible in filters then None else Some(row.userID == user && AllWanted(filters, row))
      {
        EvalWithoutCategories(user, conditions, atoms, args, filters, row);
      }
    }

    /** The query that `GetEntries` sends: every placeholder has an argument and every argument a placeholder. */
    method EntriesQuery() returns (q: Query)
      requires Valid()
      ensures forall row :: EvalWhere(q.where, q.from, args, row) == Some(row.userID == user && AllWanted(filters, row))
      ensures if anchors == [] then q.high == "" else
                |Split(q.high)| == |anchors| && forall j :: 0 <= j < |anchors| ==>
                  EvalHigh(Split(q.high)[j], args) == Some(RowTest(Greater, anchors[j].id))
      ensures Exactly(Uses(q), |args|)
      ensures q.sorts == sortExpressions && q.limit == limit && q.offset == offset && (q.numbered <==> anchors != [])
    {
      var where := BuildCondition();
      TextsCover(conditions, sortExpressions, highConds, args, atoms, anchors, owners);
      if |highConds| == 0 {
        return Query(ENTRIES_FROM, where, sortExpressions, "", limit, offset, numberedRows);
      }
      HighsReadBack(highConds, anchors, args);
      return Query(ENTRIES_FROM, where, sortExpressions, Join(highConds, AND), limit, offset, numberedRows);
    }

    /**
     The query of `GetEntryIDs`: the server rejects it exactly when category visibility was asked
     for, and its arguments match exactly while `WithOffsetID` was not used.
     */
    method EntryIDsQuery() returns (q: Query)
      requires Valid()
      ensures forall row ::
        EvalWhere(q.where, q.from, args, row)
        == if CategoryVisible in filters then None else Some(row.userID == user && AllWanted(filters, row))
      ensures q.high == "" && (Exactly(Uses(q), |args|) <==> anchors == [])
      ensures q.sorts == sortExpressions && q.limit == limit && q.offset == offset
    {
      var where := BuildCondition();
      TextsCover(conditions, sortExpressions, highConds, args, atoms, anchors, owners);
      q := Query(IDS_FROM, where, sortExpressions, "", limit, offset, false);
    }

    /** The query of `CountEntries`, which neither sorts nor limits. */
    method CountQuery() returns (q: Query)
      requires Valid()
      ensures forall row :: EvalWhere(q.where, q.from, args, row) == Some(row.userID == user && AllWanted(filters, row))
      ensures q.high == "" && (Exactly(Uses(q), |args|) <==> anchors == [])
    {
      var where := BuildCondition();
      TextsCover(conditions, [], highConds, args, atoms, anchors, owners);
      q := Query(ENTRIES_FROM, where, [], "", 0, 0, false);
    }
  }

  /** The switch of `WithSorting`. */
  method NormalDirection(direction: string) returns (normal: Option<string>)
    ensures normal == if IsAsc(direction) then Some("ASC") else if IsDesc(direction) then Some("DESC") else None
  {
    FoldsTo(direction);
    if Fold(direction) == "asc" {
      return Some("ASC");
    } else if Fold(direction) == "desc" {
      return Some("DESC");
    }
    normal := None;
  }

  /** An id query on globally visible entries: the server rejects it whatever else was asked for. */
  method GloballyVisibleIDs(builder: EntryQueryBuilder) returns (q: Query)
    requires builder.Valid()
    modifies builder
    ensures builder.Valid() && forall row :: EvalWhere(q.where, q.from, builder.args, row) == None
  {
    builder.WithGloballyVisible();
    q := builder.EntryIDsQuery();
  }

  /** What the WHERE text makes of the FROM clause of `GetEntryIDs`. */
  lemma EvalWithoutCategories(user: Id, conds: seq<string>, atoms: seq<Atom>, args: seq<Arg>, fs: seq<Filter>, row: Row)
    requires Compiled(user, conds, args, atoms, fs)
    ensures EvalWhere(Join(conds, AND), IDS_FROM, args, row)
         == if CategoryVisible in fs then None else Some(row.userID == user && AllWanted(fs, row))
  {
    if CategoryVisible in fs {
      var i :| 0 <= i < |atoms| && atoms[i].op.CategoryShown?;
      WhereRejected(conds, atoms, IDS_FROM, args, row, i);
    } else {
      WhereEvaluates(conds, atoms, IDS_FROM, args, row);
    }
  }

  /** The condition text `appendCondition` makes. */
  function Numbered(prefix: string, arg: Option<Arg>, suffix: string, n: nat): string {
    if arg.Some? then prefix + Render(n, 10) + suffix else prefix
  }

  lemma FirstCondition(user: Id)
    ensures Compiled(user, ["e.user_id = $1"], [Num(user)], [Atom(OwnedBy, 1)], [])
  {
  }
}
