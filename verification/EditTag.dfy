/**
 The edit-tag request of the Google Reader API (internal/googlereader/handler.go): tags to add and
 to remove are reduced to what they ask for, the selected entries are sorted into lists, and up to
 four updates run concurrently (internal/storage/entry.go).
 */
module EditTag {
  import opened Prelude
  import opened RefreshSpec
  import SqlReading
  import QueryPlan
  import B = QueryBuilder

  datatype Stream =
    | NoStream | ReadStream | StarredStream | ReadingListStream | KeptUnreadStream | BroadcastStream
    | BroadcastFriendsStream | LabelStream | FeedStream | LikeStream

  type Tags = map<Stream, bool>

  datatype Error = NoTags | Simultaneously | Unsupported

  // ---- checkAndSimplifyTags ----

  predicate Supported(s: Stream) {
    s.ReadStream? || s.KeptUnreadStream? || s.StarredStream? || s.BroadcastStream? || s.LikeStream?
  }

  /** Says something about being read. */
  predicate OnRead(s: Stream) { s.ReadStream? || s.KeptUnreadStream? }

  /**
   The lists that are accepted. Added kept-unread must come before any added read, and only once;
   a removal must be the only word on its subject.
   */
  ghost predicate Accepts(add: seq<Stream>, remove: seq<Stream>) {
    && (forall i :: 0 <= i < |add| ==> AddFits(add, i))
    && (forall i :: 0 <= i < |remove| ==> RemoveFits(add, remove, i))
  }

  ghost predicate AddFits(add: seq<Stream>, i: nat)
    requires i < |add|
  {
    Supported(add[i]) && (add[i].KeptUnreadStream? ==> forall j :: 0 <= j < i ==> !OnRead(add[j]))
  }

  ghost predicate RemoveFits(add: seq<Stream>, remove: seq<Stream>, i: nat)
    requires i < |remove|
  {
    && Supported(remove[i])
    && (OnRead(remove[i]) ==>
          (forall j :: 0 <= j < |add| ==> !OnRead(add[j])) && forall j :: 0 <= j < i ==> !OnRead(remove[j]))
    && (remove[i].StarredStream? ==>
          && (forall j :: 0 <= j < |add| ==> !add[j].StarredStream?)
          && forall j :: 0 <= j < i ==> !remove[j].StarredStream?)
  }

  ghost predicate Occurs(s: Stream, streams: seq<Stream>, k: nat)
    requires k <= |streams|
  {
    exists i :: 0 <= i < k && streams[i] == s
  }

  /** The tags after the whole add list and the first `k` of the remove list. */
  ghost predicate TagsOf(tags: Tags, add: seq<Stream>, a: nat, remove: seq<Stream>, k: nat)
    requires a <= |add| && k <= |remove|
  {
    var read := Occurs(ReadStream, add, a) || Occurs(KeptUnreadStream, remove, k);
    var unread := Occurs(KeptUnreadStream, add, a) || Occurs(ReadStream, remove, k);
    var starred, unstarred := Occurs(StarredStream, add, a), Occurs(StarredStream, remove, k);
    && (ReadStream in tags <==> read || unread) && (ReadStream in tags ==> tags[ReadStream] == read)
    && (StarredStream in tags <==> starred || unstarred) && (StarredStream in tags ==> tags[StarredStream] == starred)
    && tags.Keys <= {ReadStream, StarredStream}
  }

  /** Accepted lists are reduced to whether the entries shall be read and whether they shall be starred. */
  method CheckAndSimplifyTags(addTags: seq<Stream>, removeTags: seq<Stream>) returns (r: Result<Tags, Error>)
    ensures r.Ok? <==> Accepts(addTags, removeTags)
    ensures r.Ok? ==> TagsOf(r.value, addTags, |addTags|, removeTags, |removeTags|)
  {
    var tags: Tags := map[];
    for i := 0 to |addTags|
      invariant forall j :: 0 <= j < i ==> AddFits(addTags, j)
      invariant TagsOf(tags, addTags, i, removeTags, 0)
    {
      match addTags[i]
      case ReadStream =>
        if KeptUnreadStream in tags {
          return Err(Simultaneously);
        }
        tags := tags[ReadStream := true];
      case KeptUnreadStream =>
        if ReadStream in tags {
          assert !AddFits(addTags, i);
          return Err(Simultaneously);
        }
        tags := tags[ReadStream := false];
      case StarredStream => tags := tags[StarredStream := true];
      case BroadcastStream =>
      case LikeStream =>
      case _ =>
        assert !AddFits(addTags, i);
        return Err(Unsupported);
    }
    for i := 0 to |removeTags|
      invariant forall j :: 0 <= j < i ==> RemoveFits(addTags, removeTags, j)
      invariant TagsOf(tags, addTags, |addTags|, removeTags, i)
    {
      match removeTags[i]
      case ReadStream =>
        if ReadStream in tags {
          assert !RemoveFits(addTags, removeTags, i);
          return Err(Simultaneously);
        }
        tags := tags[ReadStream := false];
      case KeptUnreadStream =>
        if ReadStream in tags {
          assert !RemoveFits(addTags, removeTags, i);
          return Err(Simultaneously);
        }
        tags := tags[ReadStream := true];
      case StarredStream =>
        if StarredStream in tags {
          assert !RemoveFits(addTags, removeTags, i);
          return Err(Simultaneously);
        }
        tags := tags[StarredStream := false];
      case BroadcastStream =>
      case LikeStream =>
      case _ =>
        assert !RemoveFits(addTags, removeTags, i);
        return Err(Unsupported);
    }
    r := Ok(tags);
  }

  /** The order of added tags decides whether they are accepted. */
  lemma OrderOfTagsMatters()
    ensures Accepts([KeptUnreadStream, ReadStream], []) && !Accepts([ReadStream, KeptUnreadStream], [])
  {
    var bad := [ReadStream, KeptUnreadStream];
    assert OnRead(bad[0]) && !AddFits(bad, 1);
  }

  // ---- sorting the selected entries ----

  datatype Entry = Entry(id: Id, status: Status, starred: bool)

  /** What can happen to an entry. */
  datatype Fate = ToRead | ToUnread | ToStarred | ToUnstarred

  predicate Meets(f: Fate, tags: Tags, e: Entry) {
    match f
    case ToRead => ReadStream in tags && tags[ReadStream] && e.status.Unread?
    case ToUnread => ReadStream in tags && !tags[ReadStream] && e.status.Read?
    case ToStarred => StarredStream in tags && tags[StarredStream] && !e.starred
    case ToUnstarred => StarredStream in tags && !tags[StarredStream] && e.starred
  }

  /** The entries that meet a fate, in order. */
  function Those(f: Fate, tags: Tags, es: seq<Entry>): seq<Entry> {
    if es == [] then [] else
    Those(f, tags, es[..|es| - 1]) + if Meets(f, tags, es[|es| - 1]) then [es[|es| - 1]] else []
  }

  function IdsOf(f: Fate, tags: Tags, es: seq<Entry>): seq<Id> {
    if es == [] then [] else
    IdsOf(f, tags, es[..|es| - 1]) + if Meets(f, tags, es[|es| - 1]) then [es[|es| - 1].id] else []
  }

  lemma {:induction false} IdsAre(f: Fate, tags: Tags, es: seq<Entry>, id: Id)
    ensures id in IdsOf(f, tags, es) <==> exists i :: 0 <= i < |es| && Meets(f, tags, es[i]) && es[i].id == id
  {
    if es != [] { IdsAre(f, tags, es[..|es| - 1], id); }
  }

  datatype Lists = Lists(read: seq<Id>, unread: seq<Id>, starred: seq<Id>, unstarred: seq<Id>)

  function ListsOf(tags: Tags, es: seq<Entry>): Lists {
    Lists(IdsOf(ToRead, tags, es), IdsOf(ToUnread, tags, es), IdsOf(ToStarred, tags, es), IdsOf(ToUnstarred, tags, es))
  }

  /**
   One loop makes the four lists and moves the newly starred entries to the front of the array,
   over those already seen.
   */
  method SortEntries(entries: array<Entry>, tags: Tags) returns (lists: Lists, n: nat)
    modifies entries
    ensures lists == ListsOf(tags, old(entries[..]))
    ensures n <= entries.Length && entries[..n] == Those(ToStarred, tags, old(entries[..]))
  {
    n := 0;
    lists := Lists([], [], [], []);
    ghost var es := entries[..];
    for i := 0 to entries.Length
      invariant n <= i
      invariant forall j :: i <= j < entries.Length ==> entries[j] == es[j]
      invariant entries[..n] == Those(ToStarred, tags, es[..i])
      invariant lists == ListsOf(tags, es[..i])
    {
      var entry := entries[i];
      assert es[..i + 1][..i] == es[..i];
      lists := SortEntry(lists, tags, entry);
      if StarredStream in tags && tags[StarredStream] && !entry.starred {
        entries[n] := entry;
        n := n + 1;
      }
    }
    assert es[..entries.Length] == es;
  }

  /** The part of the loop's body that fills the lists. */
  method SortEntry(lists: Lists, tags: Tags, entry: Entry) returns (r: Lists)
    ensures r.read == lists.read + if Meets(ToRead, tags, entry) then [entry.id] else []
    ensures r.unread == lists.unread + if Meets(ToUnread, tags, entry) then [entry.id] else []
    ensures r.starred == lists.starred + if Meets(ToStarred, tags, entry) then [entry.id] else []
    ensures r.unstarred == lists.unstarred + if Meets(ToUnstarred, tags, entry) then [entry.id] else []
  {
    r := lists;
    if ReadStream in tags {
      match entry.status
      case Unread =>
        if tags[ReadStream] { r := r.(read := r.read + [entry.id]); }
      case Read =>
        if !tags[ReadStream] { r := r.(unread := r.unread + [entry.id]); }
      case _ =>
    }
    if StarredStream in tags {
      if entry.starred {
        if !tags[StarredStream] { r := r.(unstarred := r.unstarred + [entry.id]); }
      } else if tags[StarredStream] {
        r := r.(starred := r.starred + [entry.id]);
      }
    }
  }

  // ---- the updates ----

  datatype Row = Row(userID: Id, status: Status, starred: bool, content: int)

  type Rows = map<Id, Row>

  datatype Update = SetStatus(ids: seq<Id>, status: Status) | SetStarred(ids: seq<Id>, starred: bool)

  function UpdateRow(row: Row, id: Id, user: Id, u: Update): Row {
    if row.userID != user || id !in u.ids then row
    else match u
      case SetStatus(_, status) => if row.status.Removed? then row else row.(status := status)
      case SetStarred(_, starred) => row.(starred := starred)
  }

  /** `SetEntriesStatus` and `SetEntriesBookmarkedState`, each one statement. */
  function Update1(rows: Rows, user: Id, u: Update): Rows { map id | id in rows :: UpdateRow(rows[id], id, user, u) }

  function UpdateAll(rows: Rows, user: Id, us: seq<Update>): Rows {
    if us == [] then rows else Update1(UpdateAll(rows, user, us[..|us| - 1]), user, us[|us| - 1])
  }

  /** The updates of non-empty lists. */
  function Planned(l: Lists): seq<Update> {
    (if |l.read| > 0 then [SetStatus(l.read, Read)] else [])
    + (if |l.unread| > 0 then [SetStatus(l.unread, Unread)] else [])
    + (if |l.unstarred| > 0 then [SetStarred(l.unstarred, false)] else [])
    + (if |l.starred| > 0 then [SetStarred(l.starred, true)] else [])
  }

  /** The selected entries are rows of the user as they are in the table. */
  ghost predicate Snapshot(rows: Rows, user: Id, es: seq<Entry>) {
    forall i :: 0 <= i < |es| ==>
      es[i].id in rows && rows[es[i].id].userID == user && !rows[es[i].id].status.Removed?
      && es[i] == Entry(es[i].id, rows[es[i].id].status, rows[es[i].id].starred)
  }

  ghost predicate Selected(es: seq<Entry>, id: Id) { exists i :: 0 <= i < |es| && es[i].id == id }

  /** What the tags ask of a selected row. */
  function Asked(tags: Tags, row: Row): Row {
    row.(status := if ReadStream in tags && (row.status.Unread? || row.status.Read?)
                   then (if tags[ReadStream] then Read else Unread) else row.status,
         starred := if StarredStream in tags then tags[StarredStream] else row.starred)
  }

  /** All updates that name the row want the same of it. */
  ghost predicate Agrees(us: seq<Update>, id: Id, status: Status, starred: bool) {
    forall i :: 0 <= i < |us| && id in us[i].ids ==>
      if us[i].SetStatus? then us[i].status == status else us[i].starred == starred
  }

  ghost predicate SetsStatus(us: seq<Update>, id: Id) {
    exists i :: 0 <= i < |us| && us[i].SetStatus? && id in us[i].ids
  }

  ghost predicate SetsStarred(us: seq<Update>, id: Id) {
    exists i :: 0 <= i < |us| && us[i].SetStarred? && id in us[i].ids
  }

  /** Then their order, and how often they run, do not matter. */
  lemma {:induction false} AgreeingUpdates(rows: Rows, user: Id, us: seq<Update>, id: Id, status: Status, starred: bool)
    requires id in rows && Agrees(us, id, status, starred) && !status.Removed?
    ensures var rows' := UpdateAll(rows, user, us);
      && rows'.Keys == rows.Keys
      && rows'[id] == if rows[id].userID != user then rows[id] else
           rows[id].(status := if SetsStatus(us, id) && !rows[id].status.Removed? then status else rows[id].status,
                     starred := if SetsStarred(us, id) then starred else rows[id].starred)
  {
    if us != [] {
      var n := |us| - 1;
      AgreeingUpdates(rows, user, us[..n], id, status, starred);
      assert SetsStatus(us, id) <==> SetsStatus(us[..n], id) || (us[n].SetStatus? && id in us[n].ids);
      assert SetsStarred(us, id) <==> SetsStarred(us[..n], id) || (us[n].SetStarred? && id in us[n].ids);
    }
  }

  ghost predicate SameUpdates(us: seq<Update>, plan: seq<Update>) { forall u :: u in us <==> u in plan }

  lemma FateOf(rows: Rows, user: Id, es: seq<Entry>, tags: Tags, f: Fate, id: Id)
    requires Snapshot(rows, user, es) && id in rows
    ensures id in IdsOf(f, tags, es) <==>
      Selected(es, id) && Meets(f, tags, Entry(id, rows[id].status, rows[id].starred))
  {
  }

  lemma PlanSets(l: Lists, us: seq<Update>, id: Id)
    requires SameUpdates(us, Planned(l))
    ensures SetsStatus(us, id) <==> id in l.read || id in l.unread
    ensures SetsStarred(us, id) <==> id in l.starred || id in l.unstarred
    ensures forall u :: u in us && id in u.ids ==>
              if u.SetStatus? then (if u.status.Read? then id in l.read else u.status.Unread? && id in l.unread)
              else if u.starred then id in l.starred else id in l.unstarred
  {
    assert forall i :: 0 <= i < |us| ==> us[i] in us;
    assert |l.read| > 0 ==> SetStatus(l.read, Read) in us;
    assert |l.unread| > 0 ==> SetStatus(l.unread, Unread) in us;
    assert |l.starred| > 0 ==> SetStarred(l.starred, true) in us;
    assert |l.unstarred| > 0 ==> SetStarred(l.unstarred, false) in us;
  }

  function StatusAsked(tags: Tags): Status { if ReadStream in tags && tags[ReadStream] then Read else Unread }

  predicate StarAsked(tags: Tags) { StarredStream in tags && tags[StarredStream] }

  /** The planned updates agree on a row, and name it exactly when it is selected and not yet as asked. */
  lemma PlanAgrees(rows: Rows, user: Id, es: seq<Entry>, tags: Tags, us: seq<Update>, id: Id)
    requires Snapshot(rows, user, es) && SameUpdates(us, Planned(ListsOf(tags, es))) && id in rows
    ensures Agrees(us, id, StatusAsked(tags), StarAsked(tags))
    ensures var e := Entry(id, rows[id].status, rows[id].starred);
      && (SetsStatus(us, id) <==> Selected(es, id) && (Meets(ToRead, tags, e) || Meets(ToUnread, tags, e)))
      && (SetsStarred(us, id) <==> Selected(es, id) && (Meets(ToStarred, tags, e) || Meets(ToUnstarred, tags, e)))
  {
    FateOf(rows, user, es, tags, ToRead, id);
    FateOf(rows, user, es, tags, ToUnread, id);
    FateOf(rows, user, es, tags, ToStarred, id);
    FateOf(rows, user, es, tags, ToUnstarred, id);
    PlanSets(ListsOf(tags, es), us, id);
    assert forall i :: 0 <= i < |us| ==> us[i] in us;
  }

  /**
   In whatever order the planned updates run, every selected entry ends as the tags ask and no
   other row changes.
   */
  lemma UpdatesDoWhatIsAsked(rows: Rows, user: Id, es: seq<Entry>, tags: Tags, us: seq<Update>, id: Id)
    requires Snapshot(rows, user, es) && SameUpdates(us, Planned(ListsOf(tags, es))) && id in rows
    ensures UpdateAll(rows, user, us).Keys == rows.Keys
    ensures UpdateAll(rows, user, us)[id] == if Selected(es, id) then Asked(tags, rows[id]) else rows[id]
  {
    PlanAgrees(rows, user, es, tags, us, id);
    AgreeingUpdates(rows, user, us, id, StatusAsked(tags), StarAsked(tags));
  }

  /** The starred update of a non-empty list touches a row, so it does not report an error. */
  lemma StarredUpdateTouches(rows: Rows, user: Id, es: seq<Entry>, tags: Tags, f: Fate, before: seq<Update>)
    requires Snapshot(rows, user, es) && IdsOf(f, tags, es) != []
    ensures var after := UpdateAll(rows, user, before);
      exists id :: id in IdsOf(f, tags, es) && id in after && after[id].userID == user
  {
    var id := IdsOf(f, tags, es)[0];
    IdsAre(f, tags, es, id);
    RowsStay(rows, user, before, id);
    assert id in IdsOf(f, tags, es);
  }

  lemma {:induction false} RowsStay(rows: Rows, user: Id, us: seq<Update>, id: Id)
    requires id in rows
    ensures id in UpdateAll(rows, user, us) && UpdateAll(rows, user, us)[id].userID == rows[id].userID
  {
    if us != [] { RowsStay(rows, user, us[..|us| - 1], id); }
  }

  // ---- the request ----

  /** The ids name the entry; a single zero id names all. */
  predicate Named(itemIDs: seq<Id>, id: Id) { itemIDs == [0] || id in itemIDs }

  /** The statements run concurrently: any that is left may be the next. */
  method RunUpdates(rows: Rows, user: Id, plan: seq<Update>) returns (r: Rows, ghost us: seq<Update>)
    ensures multiset(us) == multiset(plan) && r == UpdateAll(rows, user, us)
  {
    r, us := rows, [];
    var left := plan;
    while left != []
      invariant multiset(us) + multiset(left) == multiset(plan) && r == UpdateAll(rows, user, us)
      decreases |left|
    {
      var k :| 0 <= k < |left|;
      r := Update1(r, user, left[k]);
      us := us + [left[k]];
      assert left == left[..k] + [left[k]] + left[k + 1..];
      left := left[..k] + left[k + 1..];
    }
  }

  /** The selected entries are all of the user's that are named and not removed. */
  ghost predicate Complete(rows: Rows, user: Id, itemIDs: seq<Id>, es: seq<Entry>) {
    forall id :: id in rows ==>
      (Selected(es, id) <==> rows[id].userID == user && Named(itemIDs, id) && !rows[id].status.Removed?)
  }

  /**
   A request as a whole. `entries` is what `SelectEntries` selected and `rows` the table then: lists
   of tags that cannot be read are refused, otherwise every selected entry ends as the tags ask, no
   other row changes, and the newly starred entries are the ones handed to the integrations.
   */
  method EditTags(rows: Rows, user: Id, addTags: seq<Stream>, removeTags: seq<Stream>, ghost itemIDs: seq<Id>,
      entries: array<Entry>)
    returns (r: Result<Rows, Error>, sent: seq<Entry>, ghost tags: Tags)
    requires Snapshot(rows, user, entries[..])
    modifies entries
    ensures r.Ok? <==> (addTags != [] || removeTags != []) && Accepts(addTags, removeTags)
    ensures r.Ok? ==> TagsOf(tags, addTags, |addTags|, removeTags, |removeTags|) && r.value.Keys == rows.Keys
    ensures r.Ok? ==> forall id :: id in rows ==>
      r.value[id] == if Selected(old(entries[..]), id) then Asked(tags, rows[id]) else rows[id]
    ensures r.Ok? && Complete(rows, user, itemIDs, old(entries[..])) ==> forall id :: id in rows ==>
      r.value[id] ==
        if rows[id].userID == user && Named(itemIDs, id) && !rows[id].status.Removed? then Asked(tags, rows[id])
        else rows[id]
    ensures r.Ok? ==> sent == Those(ToStarred, tags, old(entries[..]))
  {
    sent, tags := [], map[];
    if |addTags| == 0 && |removeTags| == 0 {
      return Err(NoTags), sent, tags;
    }
    var simple := CheckAndSimplifyTags(addTags, removeTags);
    if simple.Err? {
      return Err(simple.error), sent, tags;
    }
    tags := simple.value;
    ghost var es := entries[..];
    var lists, n := SortEntries(entries, simple.value);
    sent := entries[..n];
    ghost var us;
    var rows';
    rows', us := RunUpdates(rows, user, Planned(lists));
    assert SameUpdates(us, Planned(lists)) by { SameMembers(us, Planned(lists)); }
    RowsStayAll(rows, user, us);
    forall id | id in rows ensures rows'[id] == if Selected(es, id) then Asked(tags, rows[id]) else rows[id] {
      UpdatesDoWhatIsAsked(rows, user, es, tags, us, id);
    }
    r := Ok(rows');
  }

  lemma SameMembers(a: seq<Update>, b: seq<Update>)
    requires multiset(a) == multiset(b)
    ensures SameUpdates(a, b)
  {
    forall u ensures u in a <==> u in b { assert u in a <==> u in multiset(a); assert u in b <==> u in multiset(b); }
  }

  lemma {:induction false} RowsStayAll(rows: Rows, user: Id, us: seq<Update>)
    ensures UpdateAll(rows, user, us).Keys == rows.Keys
  {
    if us != [] { RowsStayAll(rows, user, us[..|us| - 1]); }
  }

  /** The query for the entries: at most a thousand of the named ones that are not removed. */
  method SelectEntries(builder: B.EntryQueryBuilder, itemIDs: seq<Id>)
    requires builder.Valid() && builder.filters == [] && builder.limit == B.MAX_ENTRIES_LIMIT
    requires itemIDs != []
    modifies builder
    ensures builder.Valid() && builder.limit == B.MAX_ENTRIES_LIMIT
    ensures builder.offset == old(builder.offset) && builder.anchors == old(builder.anchors)
    ensures forall row: SqlReading.Row :: QueryPlan.AllWanted(builder.filters, row) <==>
      Named(itemIDs, row.id) && row.status != "removed"
  {
    builder.WithEntryIDs(itemIDs);
    builder.WithoutStatus("removed");
    assert builder.filters == [QueryPlan.InEntryIDs(itemIDs), QueryPlan.NotInStatus("removed")];
    SelectionMeans(itemIDs);
  }

  lemma SelectionMeans(itemIDs: seq<Id>)
    requires itemIDs != []
    ensures forall row: SqlReading.Row ::
              (QueryPlan.AllWanted([QueryPlan.InEntryIDs(itemIDs), QueryPlan.NotInStatus("removed")], row)
               <==> Named(itemIDs, row.id) && row.status != "removed")
  {
    var a, b := QueryPlan.InEntryIDs(itemIDs), QueryPlan.NotInStatus("removed");
    forall row: SqlReading.Row
      ensures QueryPlan.AllWanted([a, b], row) <==> Named(itemIDs, row.id) && row.status != "removed" {
      BothWanted(a, b, row);
    }
  }

  lemma BothWanted(a: QueryPlan.Filter, b: QueryPlan.Filter, row: SqlReading.Row)
    ensures QueryPlan.AllWanted([a, b], row) <==> QueryPlan.Wanted(a, row) && QueryPlan.Wanted(b, row)
  {
    assert [a, b][..1] == [a] && [a][..0] == [];
    assert QueryPlan.AllWanted([a], row) <==> QueryPlan.Wanted(a, row);
  }
}
