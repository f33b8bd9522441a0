/**
 An edit-tag request from its item ids to the table (internal/googlereader/handler.go): the entries
 it changes are those its query answers, and the builder's limit decides whether these are all.
 */
module EditRequest {
  import opened Prelude
  import opened EditTag
  import opened RefreshSpec
  import B = QueryBuilder
  import P = Paging
  import SqlReading

  // ---- the table the query runs on ----

  function StatusText(s: Status): string {
    match s
    case Unset => ""
    case Unread => "unread"
    case Read => "read"
    case Removed => "removed"
  }

  predicate IsRow(t: SqlReading.Row, rows: Rows) {
    && t.id in rows && t.userID == rows[t.id].userID
    && t.status == StatusText(rows[t.id].status) && t.starred == rows[t.id].starred
  }

  /** The rows in the order of the query, each once. */
  ghost predicate IsTable(table: seq<SqlReading.Row>, rows: Rows) {
    && (forall i :: 0 <= i < |table| ==> IsRow(table[i], rows))
    && (forall i, j :: 0 <= i < j < |table| ==> table[i].id != table[j].id)
    && forall id :: id in rows ==> exists i :: 0 <= i < |table| && table[i].id == id
  }

  /** What the request selects, as a test on rows. */
  ghost function Wants(user: Id, itemIDs: seq<Id>): SqlReading.Row -> bool {
    (row: SqlReading.Row) => row.userID == user && Named(itemIDs, row.id) && row.status != "removed"
  }

  /** The ids the query answers. */
  ghost function SelectedIDs(user: Id, itemIDs: seq<Id>, table: seq<SqlReading.Row>): seq<Id> {
    P.Take(P.Chosen(Wants(user, itemIDs), table), B.MAX_ENTRIES_LIMIT)
  }

  /** The user's named entries that are not removed. */
  ghost function NamedIDs(rows: Rows, user: Id, itemIDs: seq<Id>): set<Id> {
    set id | id in rows && rows[id].userID == user && Named(itemIDs, id) && !rows[id].status.Removed?
  }

  /** The entries with these ids. */
  function EntriesOf(rows: Rows, ids: seq<Id>): (es: seq<Entry>)
    requires forall i :: 0 <= i < |ids| ==> ids[i] in rows
    ensures |es| == |ids|
    ensures forall i :: 0 <= i < |es| ==> es[i] == Entry(ids[i], rows[ids[i]].status, rows[ids[i]].starred)
  {
    seq(|ids|, i requires 0 <= i < |ids| => Entry(ids[i], rows[ids[i]].status, rows[ids[i]].starred))
  }

  // ---- the query answers exactly the named entries, up to its limit ----

  ghost predicate Distinct(ids: seq<Id>) { forall i, j :: 0 <= i < j < |ids| ==> ids[i] != ids[j] }

  lemma {:induction false} ChosenIDs(p: SqlReading.Row -> bool, table: seq<SqlReading.Row>, id: Id)
    ensures id in P.Chosen(p, table) <==> exists i :: 0 <= i < |table| && p(table[i]) && table[i].id == id
  {
    if table != [] {
      var n := |table| - 1;
      ChosenIDs(p, table[..n], id);
      assert forall i :: 0 <= i < n ==> table[..n][i] == table[i];
      assert P.Chosen(p, table) == P.Chosen(p, table[..n]) + if p(table[n]) then [table[n].id] else [];
    }
  }

  lemma {:induction false} ChosenDistinct(p: SqlReading.Row -> bool, table: seq<SqlReading.Row>)
    requires forall i, j :: 0 <= i < j < |table| ==> table[i].id != table[j].id
    ensures Distinct(P.Chosen(p, table))
  {
    if table != [] {
      var n := |table| - 1;
      ChosenDistinct(p, table[..n]);
      ChosenIDs(p, table[..n], table[n].id);
      assert table[n].id !in P.Chosen(p, table[..n]);
    }
  }

  lemma StatusTells(s: Status)
    ensures StatusText(s) == "removed" <==> s.Removed?
  {
  }

  lemma RowIsWanted(rows: Rows, user: Id, itemIDs: seq<Id>, t: SqlReading.Row)
    requires IsRow(t, rows)
    ensures Wants(user, itemIDs)(t) <==> t.id in NamedIDs(rows, user, itemIDs)
  {
    StatusTells(rows[t.id].status);
    assert t.status == "removed" <==> rows[t.id].status.Removed?;
  }

  lemma ChosenAreNamed(rows: Rows, user: Id, itemIDs: seq<Id>, table: seq<SqlReading.Row>, id: Id)
    requires IsTable(table, rows)
    ensures id in P.Chosen(Wants(user, itemIDs), table) <==> id in NamedIDs(rows, user, itemIDs)
  {
    ChosenIDs(Wants(user, itemIDs), table, id);
    if id in rows {
      var i :| 0 <= i < |table| && table[i].id == id;
      RowIsWanted(rows, user, itemIDs, table[i]);
    }
  }

  lemma {:induction false} DistinctSize(ids: seq<Id>, s: set<Id>)
    requires Distinct(ids) && forall id :: id in ids <==> id in s
    ensures |ids| == |s|
  {
    if ids == [] {
      forall id ensures id !in s { assert id in ids <==> id in s; }
      assert s == {};
    } else {
      var n := |ids| - 1;
      assert ids[n] !in ids[..n];
      forall id ensures id in ids[..n] <==> id in s - {ids[n]} {
        assert ids == ids[..n] + [ids[n]];
      }
      DistinctSize(ids[..n], s - {ids[n]});
    }
  }

  lemma ChosenSize(rows: Rows, user: Id, itemIDs: seq<Id>, table: seq<SqlReading.Row>)
    requires IsTable(table, rows)
    ensures Distinct(P.Chosen(Wants(user, itemIDs), table))
    ensures |P.Chosen(Wants(user, itemIDs), table)| == |NamedIDs(rows, user, itemIDs)|
  {
    ChosenDistinct(Wants(user, itemIDs), table);
    forall id ensures id in P.Chosen(Wants(user, itemIDs), table) <==> id in NamedIDs(rows, user, itemIDs) {
      ChosenAreNamed(rows, user, itemIDs, table, id);
    }
    DistinctSize(P.Chosen(Wants(user, itemIDs), table), NamedIDs(rows, user, itemIDs));
  }

  lemma SelectedAreNamed(rows: Rows, user: Id, itemIDs: seq<Id>, table: seq<SqlReading.Row>, id: Id)
    requires IsTable(table, rows) && id in SelectedIDs(user, itemIDs, table)
    ensures id in NamedIDs(rows, user, itemIDs)
  {
    ChosenAreNamed(rows, user, itemIDs, table, id);
  }

  /** The query selects all named entries if and only if there are no more of them than its limit. */
  lemma SelectsAllIff(rows: Rows, user: Id, itemIDs: seq<Id>, table: seq<SqlReading.Row>)
    requires IsTable(table, rows)
    ensures (forall id :: id in NamedIDs(rows, user, itemIDs) ==> id in SelectedIDs(user, itemIDs, table))
      <==> |NamedIDs(rows, user, itemIDs)| <= 1000
  {
    var ids := P.Chosen(Wants(user, itemIDs), table);
    ChosenSize(rows, user, itemIDs, table);
    if |ids| <= B.MAX_ENTRIES_LIMIT {
      forall id | id in NamedIDs(rows, user, itemIDs) ensures id in SelectedIDs(user, itemIDs, table) {
        ChosenAreNamed(rows, user, itemIDs, table, id);
      }
    } else {
      var id := ids[B.MAX_ENTRIES_LIMIT];
      ChosenAreNamed(rows, user, itemIDs, table, id);
      assert id !in ids[..B.MAX_ENTRIES_LIMIT];
    }
  }

  lemma SelectedOf(rows: Rows, ids: seq<Id>, id: Id)
    requires forall i :: 0 <= i < |ids| ==> ids[i] in rows
    ensures Selected(EntriesOf(rows, ids), id) <==> id in ids
  {
    var es := EntriesOf(rows, ids);
    if id in ids {
      var i :| 0 <= i < |ids| && ids[i] == id;
      assert es[i].id == id;
    }
  }

  /** The selected entries are a snapshot, complete if and only if the named ones do not exceed the limit. */
  lemma SelectionIsComplete(rows: Rows, user: Id, itemIDs: seq<Id>, table: seq<SqlReading.Row>)
    requires IsTable(table, rows)
    ensures forall i :: 0 <= i < |SelectedIDs(user, itemIDs, table)| ==> SelectedIDs(user, itemIDs, table)[i] in rows
    ensures var es := EntriesOf(rows, SelectedIDs(user, itemIDs, table));
      && Snapshot(rows, user, es)
      && (Complete(rows, user, itemIDs, es) <==> |NamedIDs(rows, user, itemIDs)| <= 1000)
  {
    var ids := SelectedIDs(user, itemIDs, table);
    forall i | 0 <= i < |ids| ensures ids[i] in NamedIDs(rows, user, itemIDs) {
      SelectedAreNamed(rows, user, itemIDs, table, ids[i]);
    }
    forall id ensures Selected(EntriesOf(rows, ids), id) <==> id in ids { SelectedOf(rows, ids, id); }
    SelectsAllIff(rows, user, itemIDs, table);
    forall id | id in ids ensures id in NamedIDs(rows, user, itemIDs) {}
  }

  // ---- the request ----

  ghost predicate IsFresh(builder: B.EntryQueryBuilder)
    reads builder
  {
    && builder.Valid() && builder.filters == [] && builder.anchors == []
    && builder.limit == B.MAX_ENTRIES_LIMIT && builder.offset == 0
  }

  /** The query `SelectEntries` prepares answers these ids. */
  method SelectionQuery(builder: B.EntryQueryBuilder, itemIDs: seq<Id>, ghost table: seq<SqlReading.Row>)
    returns (q: B.Query)
    requires IsFresh(builder) && itemIDs != []
    modifies builder
    ensures builder.Valid() && P.Answer(q, builder.args, table) == SelectedIDs(builder.user, itemIDs, table)
  {
    SelectEntries(builder, itemIDs);
    q := builder.EntriesQuery();
    ghost var p := Wants(builder.user, itemIDs);
    assert P.Means(q.from, q.where, builder.args, p);
    P.QueryAnswersSlice(q, builder.args, p, table);
  }

  /** The entries that were read with these ids. */
  ghost predicate ReadOf(es: seq<Entry>, rows: Rows, ids: seq<Id>) {
    (forall i :: 0 <= i < |ids| ==> ids[i] in rows) && es == EntriesOf(rows, ids)
  }

  /**
   A request as a whole, for the entries its query answers: each of them ends as the tags ask and no
   other row changes. They are all the user's named entries that are not removed if and only if these
   are at most a thousand.
   */
  method EditNamed(builder: B.EntryQueryBuilder, user: Id, rows: Rows, addTags: seq<Stream>, removeTags: seq<Stream>,
      itemIDs: seq<Id>, ghost table: seq<SqlReading.Row>, entries: array<Entry>)
    returns (q: B.Query, r: Result<Rows, Error>, ghost tags: Tags, ghost ids: seq<Id>)
    requires IsFresh(builder) && user == builder.user && itemIDs != [] && IsTable(table, rows)
    requires ReadOf(entries[..], rows, SelectedIDs(user, itemIDs, table))
    modifies builder, entries
    ensures ids == SelectedIDs(user, itemIDs, table) == P.Answer(q, builder.args, table)
    ensures r.Ok? <==> (addTags != [] || removeTags != []) && Accepts(addTags, removeTags)
    ensures r.Ok? ==> TagsOf(tags, addTags, |addTags|, removeTags, |removeTags|) && r.value.Keys == rows.Keys
    ensures r.Ok? ==> forall id :: id in rows ==> r.value[id] == if id in ids then Asked(tags, rows[id]) else rows[id]
    ensures (forall id :: id in ids <==> id in NamedIDs(rows, user, itemIDs))
      <==> |NamedIDs(rows, user, itemIDs)| <= 1000
  {
    ids := SelectedIDs(user, itemIDs, table);
    SelectionIsComplete(rows, user, itemIDs, table);
    SelectsAllIff(rows, user, itemIDs, table);
    forall id | id in ids ensures id in NamedIDs(rows, user, itemIDs) {
      SelectedAreNamed(rows, user, itemIDs, table, id);
    }
    forall id ensures Selected(EntriesOf(rows, ids), id) <==> id in ids { SelectedOf(rows, ids, id); }
    q := SelectionQuery(builder, itemIDs, table);
    var sent;
    r, sent, tags := EditTags(rows, user, addTags, removeTags, itemIDs, entries);
  }

  // ---- a request above the limit ----

  function UpTo(n: nat): (ids: set<Id>)
    ensures |ids| == n && forall id :: id in ids <==> 1 <= id <= n
  {
    if n == 0 then {} else UpTo(n - 1) + {n}
  }

  /** A user with more unread entries than the limit, and a request that names them all by a zero id. */
  lemma AboveLimit(user: Id, n: nat) returns (rows: Rows, table: seq<SqlReading.Row>)
    requires n > 1000
    ensures IsTable(table, rows) && |NamedIDs(rows, user, [0])| == n
    ensures exists id :: id in NamedIDs(rows, user, [0]) && id !in SelectedIDs(user, [0], table)
  {
    rows := AllUnread(user, n);
    table := seq(n, i requires 0 <= i < n => UnreadRow(user, i + 1));
    UnreadTable(user, n, table);
    assert NamedIDs(rows, user, [0]) == UpTo(n);
    SelectsAllIff(rows, user, [0], table);
  }

  function AllUnread(user: Id, n: nat): Rows { map id | id in UpTo(n) :: Row(user, Unread, false, 0) }

  function UnreadRow(user: Id, id: Id): SqlReading.Row {
    SqlReading.Row(id, user, 0, 0, "", StatusText(Unread), false, 0, 0, [], {}, false, false)
  }

  lemma UnreadTable(user: Id, n: nat, table: seq<SqlReading.Row>)
    requires |table| == n && forall i :: 0 <= i < n ==> table[i] == UnreadRow(user, i + 1)
    ensures IsTable(table, AllUnread(user, n))
  {
    var rows := AllUnread(user, n);
    forall id | id in rows ensures exists i :: 0 <= i < |table| && table[i].id == id { assert table[id - 1].id == id; }
  }
}
