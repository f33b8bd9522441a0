/**
 What a chain of `With*` calls asks for, and when conditions, arguments and placeholders of a
 builder carry it (internal/storage/entry_query_builder.go).
 */
module QueryPlan {
  import opened Prelude
  import opened Numerals
  import opened QueryText
  import opened SqlReading

  /** One request; `WithGloballyVisible` makes two. */
  datatype Filter =
    | ByAuthor(name: string)
    | Matching(query: string)
    | BeingStarred(starred: bool)
    | BeforeChangedDate(date: int)
    | AfterChangedDate(date: int)
    | BeforePublishedDate(date: int)
    | AfterPublishedDate(date: int)
    | BeforeEntryID(id: Id)
    | AfterEntryID(id: Id)
    | InEntryIDs(ids: seq<Id>)
    | OfFeed(id: Id)
    | OfCategory(id: Id)
    | InStatuses(statuses: seq<string>)
    | TaggedWith(tags: seq<string>)
    | NotInStatus(status: string)
    | CategoryVisible
    | FeedVisible

  /** What the caller wants; an empty or zero request wants everything, and so does the list of one zero id. */
  ghost predicate Wanted(f: Filter, row: Row) {
    match f
    case ByAuthor(name) => row.author == name
    case Matching(query) => query == "" || query in row.found
    case BeingStarred(starred) => row.starred == starred
    case BeforeChangedDate(date) => row.changedAt < date
    case AfterChangedDate(date) => row.changedAt > date
    case BeforePublishedDate(date) => row.publishedAt < date
    case AfterPublishedDate(date) => row.publishedAt > date
    case BeforeEntryID(id) => id == 0 || row.id < id
    case AfterEntryID(id) => id == 0 || row.id > id
    case InEntryIDs(ids) => ids == [] || ids == [0] || row.id in ids
    case OfFeed(id) => id <= 0 || row.feedID == id
    case OfCategory(id) => id <= 0 || row.categoryID == id
    case InStatuses(statuses) => statuses == [] || statuses == [""] || row.status in statuses
    case TaggedWith(tags) => Tagged(row, tags)
    case NotInStatus(status) => status == "" || row.status != status
    case CategoryVisible => !row.categoryHidden
    case FeedVisible => !row.feedHidden
  }

  ghost predicate AllWanted(fs: seq<Filter>, row: Row) {
    fs == [] || (AllWanted(fs[..|fs| - 1], row) && Wanted(fs[|fs| - 1], row))
  }

  // ---- conditions ----

  /** The conditions hold of exactly the user's rows that all requests want. */
  ghost predicate Agree(user: Id, atoms: seq<Atom>, args: seq<Arg>, fs: seq<Filter>)
    requires AllOK(atoms, args)
  {
    forall row :: AllHold(atoms, args, row) <==> row.userID == user && AllWanted(fs, row)
  }

  ghost predicate Compiled(user: Id, conds: seq<string>, args: seq<Arg>, atoms: seq<Atom>, fs: seq<Filter>) {
    conds != [] && Writes(conds, atoms) && AllOK(atoms, args) && Agree(user, atoms, args, fs)
      && NamesCategory(atoms, fs)
  }

  /** A condition looks at the categories table exactly when its visibility was asked for. */
  ghost predicate NamesCategory(atoms: seq<Atom>, fs: seq<Filter>) {
    && (CategoryVisible in fs ==> exists i :: 0 <= i < |atoms| && atoms[i].op.CategoryShown?)
    && (forall i :: 0 <= i < |atoms| && atoms[i].op.CategoryShown? ==> CategoryVisible in fs)
  }

  lemma {:induction false} ValuesStay(atoms: seq<Atom>, args: seq<Arg>, more: seq<Arg>, row: Row)
    requires AllOK(atoms, args)
    ensures AllOK(atoms, args + more) && Values(atoms, args + more, row) == Values(atoms, args, row)
  {
    if atoms != [] { ValuesStay(atoms[..|atoms| - 1], args, more, row); }
  }

  /** The condition asks for the same as the request. */
  ghost predicate Serves(op: Op, arg: Option<Arg>, f: Filter) {
    && (TakesArg(op) <==> arg.Some?) && (arg.Some? ==> Fits(op, arg.value))
    && (op.CategoryShown? <==> f.CategoryVisible?)
    && forall row :: Means(op, if arg.Some? then arg.value else Num(0), row) <==> Wanted(f, row)
  }

  /** The condition and argument the builder compiles a request to. */
  ghost predicate Suits(op: Op, arg: Option<Arg>, f: Filter) {
    match f
    case ByAuthor(name) => op == AuthorIs && arg == Some(Text(name))
    case Matching(query) => op == Search && query != "" && arg == Some(Text(query))
    case BeingStarred(starred) => op == (if starred then Starred else NotStarred) && arg == None
    case BeforeChangedDate(date) => op == ChangedBefore && arg == Some(Date(date))
    case AfterChangedDate(date) => op == ChangedAfter && arg == Some(Date(date))
    case BeforePublishedDate(date) => op == PublishedBefore && arg == Some(Date(date))
    case AfterPublishedDate(date) => op == PublishedAfter && arg == Some(Date(date))
    case BeforeEntryID(id) => op == IdBelow && id != 0 && arg == Some(Num(id))
    case AfterEntryID(id) => op == IdAbove && id != 0 && arg == Some(Num(id))
    case InEntryIDs(ids) =>
      || (|ids| == 1 && ids[0] != 0 && op == IdIs && arg == Some(Num(ids[0])))
      || (|ids| > 1 && op == IdAmong && arg == Some(Nums(ids)))
    case OfFeed(id) => op == FeedIs && id > 0 && arg == Some(Num(id))
    case OfCategory(id) => op == CategoryIs && id > 0 && arg == Some(Num(id))
    case InStatuses(statuses) =>
      || (|statuses| == 1 && statuses[0] != "" && op == StatusIs && arg == Some(Text(statuses[0])))
      || (|statuses| > 1 && op == StatusAmong && arg == Some(Texts(statuses)))
    case TaggedWith(tags) => op == TagsInclude && tags != [] && arg == Some(Texts(tags))
    case NotInStatus(status) => op == StatusIsNot && status != "" && arg == Some(Text(status))
    case CategoryVisible => op == CategoryShown && arg == None
    case FeedVisible => op == FeedShown && arg == None
  }

  /** It asks for the same as the request. */
  lemma SuitsServes(op: Op, arg: Option<Arg>, f: Filter)
    requires Suits(op, arg, f)
    ensures Serves(op, arg, f)
  {
    SuitsShape(op, arg, f);
    forall row ensures Means(op, if arg.Some? then arg.value else Num(0), row) <==> Wanted(f, row) {
      MeansWanted(op, arg, f, row);
    }
  }

  lemma SuitsShape(op: Op, arg: Option<Arg>, f: Filter)
    requires Suits(op, arg, f)
    ensures (TakesArg(op) <==> arg.Some?) && (arg.Some? ==> Fits(op, arg.value))
    ensures op.CategoryShown? <==> f.CategoryVisible?
  {
  }

  lemma MeansWanted(op: Op, arg: Option<Arg>, f: Filter, row: Row)
    requires Suits(op, arg, f) && (TakesArg(op) <==> arg.Some?) && (arg.Some? ==> Fits(op, arg.value))
    ensures Means(op, if arg.Some? then arg.value else Num(0), row) <==> Wanted(f, row)
  {
  }

  /** Requests the builder adds no condition for. */
  predicate AsksNothing(f: Filter) {
    match f
    case Matching(query) => query == ""
    case BeforeEntryID(id) => id == 0
    case AfterEntryID(id) => id == 0
    case InEntryIDs(ids) => ids == [] || ids == [0]
    case OfFeed(id) => id <= 0
    case OfCategory(id) => id <= 0
    case InStatuses(statuses) => statuses == [] || statuses == [""]
    case TaggedWith(tags) => tags == []
    case NotInStatus(status) => status == ""
    case _ => false
  }

  lemma NothingIsWanted(f: Filter, row: Row)
    requires AsksNothing(f)
    ensures Wanted(f, row)
  {
  }

  function ArgsOf(arg: Option<Arg>): seq<Arg> { if arg.Some? then [arg.value] else [] }

  lemma CompiledStays(user: Id, conds: seq<string>, args: seq<Arg>, more: seq<Arg>, atoms: seq<Atom>, fs: seq<Filter>)
    requires Compiled(user, conds, args, atoms, fs)
    ensures Compiled(user, conds, args + more, atoms, fs)
  {
    forall row ensures AllOK(atoms, args + more) && AllHold(atoms, args + more, row) == AllHold(atoms, args, row) {
      ValuesStay(atoms, args, more, row);
    }
  }

  lemma AddsCondition(user: Id, conds: seq<string>, args: seq<Arg>, atoms: seq<Atom>, fs: seq<Filter>,
                      op: Op, arg: Option<Arg>, f: Filter)
    requires Compiled(user, conds, args, atoms, fs) && Serves(op, arg, f)
    ensures var args' := args + ArgsOf(arg); var a := Atom(op, |args'|);
      Compiled(user, conds + [Cond(a.op, a.pos)], args', atoms + [a], fs + [f])
  {
    var args' := args + ArgsOf(arg);
    var a := Atom(op, |args'|);
    CompiledStays(user, conds, args, ArgsOf(arg), atoms, fs);
    NamesCategoryStill(atoms, fs, a, f);
    forall row ensures AllHold(atoms + [a], args', row) <==> row.userID == user && AllWanted(fs + [f], row) {
      assert (atoms + [a])[..|atoms|] == atoms && (fs + [f])[..|fs|] == fs;
      assert AllHold(atoms, args', row) <==> row.userID == user && AllWanted(fs, row);
      assert AtomHolds(a, args', row) <==> Wanted(f, row);
    }
  }

  lemma NamesCategoryStill(atoms: seq<Atom>, fs: seq<Filter>, a: Atom, f: Filter)
    requires NamesCategory(atoms, fs) && (a.op.CategoryShown? <==> f.CategoryVisible?)
    ensures NamesCategory(atoms + [a], fs + [f])
  {
    if CategoryVisible in fs + [f] {
      if CategoryVisible in fs {
        var i :| 0 <= i < |atoms| && atoms[i].op.CategoryShown?;
        assert (atoms + [a])[i].op.CategoryShown?;
      } else {
        assert (atoms + [a])[|atoms|].op.CategoryShown?;
      }
    }
    forall i | 0 <= i < |atoms + [a]| && (atoms + [a])[i].op.CategoryShown? ensures CategoryVisible in fs + [f] {
      assert i < |atoms| ==> atoms[i].op.CategoryShown?;
    }
  }

  /** A request that wants everything needs no condition. */
  lemma AddsNothing(user: Id, conds: seq<string>, args: seq<Arg>, atoms: seq<Atom>, fs: seq<Filter>, f: Filter)
    requires Compiled(user, conds, args, atoms, fs) && AsksNothing(f)
    ensures Compiled(user, conds, args, atoms, fs + [f])
  {
    forall row ensures AllWanted(fs + [f], row) <==> AllWanted(fs, row) {
      NothingIsWanted(f, row);
      assert (fs + [f])[..|fs|] == fs;
    }
  }

  // ---- placeholders ----

  /** An id `WithOffsetID` was given, and the argument that holds it. */
  datatype Anchor = Anchor(id: Id, pos: nat)

  /** Which condition an argument belongs to. */
  datatype Owner = OfCond(i: nat) | OfHigh(j: nat)

  ghost predicate OwnsArg(o: Owner, pos: nat, atoms: seq<Atom>, anchors: seq<Anchor>) {
    match o
    case OfCond(i) => i < |atoms| && TakesArg(atoms[i].op) && atoms[i].pos == pos
    case OfHigh(j) => j < |anchors| && anchors[j].pos == pos
  }

  /** Every argument is used by exactly one condition. */
  ghost predicate Placed(owners: seq<Owner>, atoms: seq<Atom>, anchors: seq<Anchor>) {
    && (forall p :: 0 <= p < |owners| ==> OwnsArg(owners[p], p + 1, atoms, anchors))
    && (forall i :: 0 <= i < |atoms| && TakesArg(atoms[i].op) ==>
      1 <= atoms[i].pos <= |owners| && owners[atoms[i].pos - 1] == OfCond(i))
    && (forall j :: 0 <= j < |anchors| ==> 1 <= anchors[j].pos <= |owners| && owners[anchors[j].pos - 1] == OfHigh(j))
  }

  ghost predicate WritesHigh(highs: seq<string>, anchors: seq<Anchor>, args: seq<Arg>) {
    && |highs| == |anchors|
    && forall j :: 0 <= j < |anchors| ==>
         highs[j] == High(anchors[j].pos) && 1 <= anchors[j].pos <= |args|
           && args[anchors[j].pos - 1] == Num(anchors[j].id)
  }

  /** A sort expression: the rank of a search, whose placeholder number is kept as text, or a column. */
  datatype Sort = Rank(pos: string) | By(column: string, direction: string)

  ghost predicate SortsOK(sorts: seq<Sort>, owners: seq<Owner>) {
    forall i :: 0 <= i < |sorts| && sorts[i].Rank? ==>
      var n := Value(sorts[i].pos, 10);
      1 <= n <= |owners| && owners[n - 1].OfCond?
  }

  /** The placeholder numbers in some texts. */
  ghost function Refs(parts: seq<string>): set<nat> {
    set i | 0 <= i < |parts| && HasPlaceholder(parts[i]) :: PlaceholderOf(parts[i])
  }

  ghost function RankRefs(sorts: seq<Sort>): set<nat> {
    set i | 0 <= i < |sorts| && sorts[i].Rank? :: Value(sorts[i].pos, 10)
  }

  /** The numbers from 1 to `n`, and no others. */
  ghost predicate Exactly(refs: set<nat>, n: nat) { forall p :: p in refs <==> 1 <= p <= n }

  ghost function CondPlaces(owners: seq<Owner>): set<nat> { set p | 0 <= p < |owners| && owners[p].OfCond? :: p + 1 }

  ghost function HighPlaces(owners: seq<Owner>): set<nat> { set p | 0 <= p < |owners| && owners[p].OfHigh? :: p + 1 }

  lemma CondRefs(conds: seq<string>, atoms: seq<Atom>, i: nat)
    requires Writes(conds, atoms) && i < |atoms|
    ensures HasPlaceholder(conds[i]) <==> TakesArg(atoms[i].op)
    ensures TakesArg(atoms[i].op) ==> PlaceholderOf(conds[i]) == atoms[i].pos
  {
    WritesEach(conds, atoms, i);
    CondParses(atoms[i].op, atoms[i].pos);
    RenderReadsBack(atoms[i].pos, 10);
  }

  lemma RefIsPlaced(conds: seq<string>, atoms: seq<Atom>, anchors: seq<Anchor>, owners: seq<Owner>, i: nat)
    requires Writes(conds, atoms) && Placed(owners, atoms, anchors) && i < |conds| && HasPlaceholder(conds[i])
    ensures PlaceholderOf(conds[i]) in CondPlaces(owners)
  {
    CondRefs(conds, atoms, i);
    assert owners[atoms[i].pos - 1] == OfCond(i);
  }

  lemma PlaceIsRef(conds: seq<string>, atoms: seq<Atom>, anchors: seq<Anchor>, owners: seq<Owner>, p: nat)
    requires Writes(conds, atoms) && Placed(owners, atoms, anchors) && p in CondPlaces(owners)
    ensures p in Refs(conds)
  {
    assert OwnsArg(owners[p - 1], p, atoms, anchors);
    var i := owners[p - 1].i;
    CondRefs(conds, atoms, i);
    assert HasPlaceholder(conds[i]) && PlaceholderOf(conds[i]) == p;
  }

  /** The conditions refer to exactly the arguments that are theirs. */
  lemma CondsReferTo(conds: seq<string>, atoms: seq<Atom>, anchors: seq<Anchor>, owners: seq<Owner>)
    requires Writes(conds, atoms) && Placed(owners, atoms, anchors)
    ensures Refs(conds) == CondPlaces(owners)
  {
    forall p | p in Refs(conds) ensures p in CondPlaces(owners) {
      var i :| 0 <= i < |conds| && HasPlaceholder(conds[i]) && PlaceholderOf(conds[i]) == p;
      RefIsPlaced(conds, atoms, anchors, owners, i);
    }
    forall p | p in CondPlaces(owners) ensures p in Refs(conds) { PlaceIsRef(conds, atoms, anchors, owners, p); }
  }

  lemma HighsReferTo(highs: seq<string>, args: seq<Arg>, atoms: seq<Atom>, anchors: seq<Anchor>, owners: seq<Owner>)
    requires WritesHigh(highs, anchors, args) && Placed(owners, atoms, anchors)
    ensures Refs(highs) == HighPlaces(owners)
  {
    forall j | 0 <= j < |anchors| ensures HasPlaceholder(highs[j]) && PlaceholderOf(highs[j]) == anchors[j].pos {
      HighParses(anchors[j].pos);
      RenderReadsBack(anchors[j].pos, 10);
    }
    forall p | p in HighPlaces(owners) ensures p in Refs(highs) {
      assert OwnsArg(owners[p - 1], p, atoms, anchors);
      assert PlaceholderOf(highs[owners[p - 1].j]) == p;
    }
  }

  /** The joined row-number conditions come apart and name the anchors. */
  lemma HighsReadBack(highs: seq<string>, anchors: seq<Anchor>, args: seq<Arg>)
    requires WritesHigh(highs, anchors, args) && highs != []
    ensures Split(Join(highs, AND)) == highs
    ensures forall j :: 0 <= j < |highs| ==> EvalHigh(highs[j], args) == Some(RowTest(Greater, anchors[j].id))
  {
    forall j | 0 <= j < |highs|
      ensures LacksD(highs[j]) && EvalHigh(highs[j], args) == Some(RowTest(Greater, anchors[j].id)) {
      HighReadsBackAt(highs, anchors, args, j);
    }
    SplitUndoesJoin(highs);
  }

  lemma HighReadsBackAt(highs: seq<string>, anchors: seq<Anchor>, args: seq<Arg>, j: nat)
    requires WritesHigh(highs, anchors, args) && j < |highs|
    ensures LacksD(highs[j]) && EvalHigh(highs[j], args) == Some(RowTest(Greater, anchors[j].id))
  {
    HighLacksD(anchors[j].pos);
    HighReadsBack(anchors[j].pos, args);
  }

  /** A condition on a new argument, or on none. */
  lemma PlacesCondition(owners: seq<Owner>, atoms: seq<Atom>, anchors: seq<Anchor>, a: Atom)
    requires Placed(owners, atoms, anchors) && (TakesArg(a.op) ==> a.pos == |owners| + 1)
    ensures Placed(owners + if TakesArg(a.op) then [OfCond(|atoms|)] else [], atoms + [a], anchors)
  {
  }

  lemma PlacesHigh(owners: seq<Owner>, atoms: seq<Atom>, anchors: seq<Anchor>, id: Id)
    requires Placed(owners, atoms, anchors)
    ensures Placed(owners + [OfHigh(|anchors|)], atoms, anchors + [Anchor(id, |owners| + 1)])
  {
  }

  /** More arguments do not disturb the rest. */
  lemma OthersStay(highs: seq<string>, anchors: seq<Anchor>, args: seq<Arg>, more: seq<Arg>,
                   sorts: seq<Sort>, owners: seq<Owner>, newer: seq<Owner>)
    requires WritesHigh(highs, anchors, args) && SortsOK(sorts, owners)
    ensures WritesHigh(highs, anchors, args + more) && SortsOK(sorts, owners + newer)
  {
  }

  lemma RanksReferTo(sorts: seq<Sort>, owners: seq<Owner>)
    requires SortsOK(sorts, owners)
    ensures RankRefs(sorts) <= CondPlaces(owners)
  {
  }

  lemma PlacesCover(owners: seq<Owner>)
    ensures Exactly(CondPlaces(owners) + HighPlaces(owners), |owners|)
    ensures CondPlaces(owners) !! HighPlaces(owners)
  {
    forall p ensures p in CondPlaces(owners) + HighPlaces(owners) <==> 1 <= p <= |owners| {
      assert 1 <= p <= |owners| ==> owners[p - 1].OfCond? || owners[p - 1].OfHigh?;
    }
  }

  /**
   With the row-number conditions every argument is referred to; without them exactly when there
   are none.
   */
  lemma TextsCover(conds: seq<string>, sorts: seq<Sort>, highs: seq<string>, args: seq<Arg>,
                   atoms: seq<Atom>, anchors: seq<Anchor>, owners: seq<Owner>)
    requires Writes(conds, atoms) && WritesHigh(highs, anchors, args) && SortsOK(sorts, owners)
    requires |owners| == |args| && Placed(owners, atoms, anchors)
    ensures Exactly(Refs(conds) + RankRefs(sorts) + Refs(highs), |args|)
    ensures anchors != [] <==> !Exactly(Refs(conds) + RankRefs(sorts), |args|)
  {
    CondsReferTo(conds, atoms, anchors, owners);
    HighsReferTo(highs, args, atoms, anchors, owners);
    RanksReferTo(sorts, owners);
    PlacesCover(owners);
    assert Refs(conds) + RankRefs(sorts) == Refs(conds);
    if anchors != [] {
      assert owners[anchors[0].pos - 1].OfHigh?;
      assert anchors[0].pos in HighPlaces(owners) && anchors[0].pos !in CondPlaces(owners);
    } else {
      assert forall p :: 0 <= p < |owners| ==> OwnsArg(owners[p], p + 1, atoms, anchors);
      assert HighPlaces(owners) == {};
      assert CondPlaces(owners) + HighPlaces(owners) == CondPlaces(owners);
    }
  }

  lemma RankAdded(sorts: seq<Sort>, owners: seq<Owner>, n: nat)
    requires SortsOK(sorts, owners) && 1 <= n <= |owners| && owners[n - 1].OfCond?
    ensures SortsOK(sorts + [Rank(Render(n, 10))], owners)
  {
    RenderReadsBack(n, 10);
  }

  lemma HighAdded(highs: seq<string>, anchors: seq<Anchor>, args: seq<Arg>, id: Id)
    requires WritesHigh(highs, anchors, args)
    ensures WritesHigh(highs + [High(|args| + 1)], anchors + [Anchor(id, |args| + 1)], args + [Num(id)])
  {
  }

  /** A row-number condition on a new argument keeps everything else. */
  lemma OffsetAdded(user: Id, conds: seq<string>, highs: seq<string>, args: seq<Arg>, atoms: seq<Atom>,
                    anchors: seq<Anchor>, owners: seq<Owner>, sorts: seq<Sort>, fs: seq<Filter>, id: Id)
    requires Compiled(user, conds, args, atoms, fs) && Placed(owners, atoms, anchors) && |owners| == |args|
    requires WritesHigh(highs, anchors, args) && SortsOK(sorts, owners)
    ensures var args', anchors', owners' := args + [Num(id)], anchors + [Anchor(id, |args| + 1)],
      owners + [OfHigh(|anchors|)];
      && Compiled(user, conds, args', atoms, fs) && Placed(owners', atoms, anchors')
      && WritesHigh(highs + [High(|args| + 1)], anchors', args') && SortsOK(sorts, owners')
  {
    CompiledStays(user, conds, args, [Num(id)], atoms, fs);
    PlacesHigh(owners, atoms, anchors, id);
    HighAdded(highs, anchors, args, id);
    OthersStay([], [], args, [Num(id)], sorts, owners, [OfHigh(|anchors|)]);
  }
}
