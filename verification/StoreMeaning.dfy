/**
 What a committed refresh leaves in the `entries` table, in terms of the parsed entries and of
 the rows before it (internal/storage/entry.go, internal/model/feed.go, internal/model/entry.go).
 The statements of `Leaves` and `Settles` name columns only; none of the functions that stamp,
 classify, filter or write an entry occurs in them.
 */
module StoreMeaning {
  import opened RefreshSpec
  import opened EntryRows
  import opened UpsertSpec

  /** The circumstances of a refresh: `seen` is what the batch has recorded when it has a filter. */
  datatype Store = Store(user: Id, feed: Id, force: bool, now: Time, filter: bool, seen: Seen)

  /** A row of the same hash in another feed of the user. */
  ghost predicate IsCopy(s: Store, rows: Rows, hash: Hash, key: Key) {
    key in rows && key.hash == hash && key.feed != s.feed && rows[key].userID == s.user
  }

  ghost predicate NewerThanCopies(s: Store, rows: Rows, e: EntryV) {
    forall key :: IsCopy(s, rows, e.hash, key) ==> e.date > rows[key].date
  }

  ghost predicate OlderThanCopies(s: Store, rows: Rows, e: EntryV) {
    && (exists key :: IsCopy(s, rows, e.hash, key))
    && forall key :: IsCopy(s, rows, e.hash, key) ==> e.date <= rows[key].date
  }

  /** Another feed of the batch was the first to show the hash. */
  predicate RecordedElsewhere(s: Store, hash: Hash) { s.filter && hash in s.seen && s.seen[hash] != s.feed }

  /** An entry without a status is unread. */
  predicate IsStatusOf(status: Status, e: EntryV) { if e.status.Unset? then status.Unread? else status == e.status }

  /** The status of a new row: the entry's own, unless another feed's stored or recorded copy makes it read. */
  ghost predicate Leaves(s: Store, rows: Rows, e: EntryV, status: Status) {
    && (e.imported ==> IsStatusOf(status, e))
    && (!e.imported && !s.force && OlderThanCopies(s, rows, e) ==> status.Read?)
    && (!e.imported && (s.force || NewerThanCopies(s, rows, e)) ==>
          if RecordedElsewhere(s, e.hash) && IsStatusOf(Unread, e) then status.Read? else IsStatusOf(status, e))
    && (status.Read? || IsStatusOf(status, e))
  }

  /** The row an entry has afterwards. */
  ghost predicate Settles(s: Store, rows: Rows, rows': Rows, e: EntryV) {
    var key := Key(s.feed, e.hash);
    && key in rows'
    && (key !in rows ==>
          var row := rows'[key];
          && row.userID == s.user && row.date == e.date && row.content == e.content
          && row.starred == e.starred && row.changedAt == s.now && Leaves(s, rows, e, row.status))
    && (key in rows && (s.force || e.date > rows[key].date) ==>
          var was, row := rows[key], rows'[key];
          && row.id == was.id && row.userID == was.userID && row.date == e.date && row.content == e.content
          && row.changedAt == s.now && IsStatusOf(row.status, e)
          && row.starred == if e.imported then e.starred else was.starred)
    && (key in rows && !s.force && e.date <= rows[key].date ==> rows'[key] == rows[key])
  }

  /** The refresh of the parsed entries `vs0`. */
  ghost predicate Refreshes(s: Store, vs0: seq<EntryV>, r: Refresh) {
    r == Refresh(s.user, s.feed, PreparedAll(vs0, s.user, s.feed), s.force, r.answer)
  }

  lemma LookedUpIsCopy(s: Store, vs0: seq<EntryV>, r: Refresh, rows: Rows, i: nat)
    requires Refreshes(s, vs0, r) && ReadFrom(r, rows) && i < |vs0| && Key(s.feed, vs0[i].hash) !in rows
    ensures var h := vs0[i].hash; var known := Known(r);
      && (h in known ==> var key := Key(known[h].feedID, h);
            IsCopy(s, rows, h, key) && rows[key].date == known[h].date && known[h].feedID != s.feed)
      && (forall key :: IsCopy(s, rows, h, key) ==> h in known)
  {
    var h := vs0[i].hash;
    StoredByMeaning(r.feed, r.answer, h);
    assert h in HashesOf(r.vs) by { assert HashesOf(r.vs)[i] == h; }
    forall key | IsCopy(s, rows, h, key) ensures h in Known(r) {
      assert Published(rows, r.user, HashesOf(r.vs), key);
      var own := StoredOf(key, rows[key]);
      var n :| 0 <= n < |r.answer| && r.answer[n] == own;
    }
    if h in Known(r) {
      var m :| 0 <= m < |r.answer| && r.answer[m] == Known(r)[h];
      assert Published(rows, r.user, HashesOf(r.vs), Key(Known(r)[h].feedID, h));
    }
  }

  lemma NewStatusLeaves(s: Store, vs0: seq<EntryV>, r: Refresh, rows: Rows, i: nat)
    requires Refreshes(s, vs0, r) && ReadFrom(r, rows) && i < |vs0| && Key(s.feed, vs0[i].hash) !in rows
    ensures Leaves(s, rows, vs0[i], NewStatus(r, s.seen, s.filter, r.vs[i]))
  {
    LookedUpIsCopy(s, vs0, r, rows, i);
  }

  /** A committed refresh settles every entry whose hash the feed does not repeat. */
  lemma RefreshSettles(s: Store, vs0: seq<EntryV>, r: Refresh, rows: Rows, next: Id, i: nat)
    requires Refreshes(s, vs0, r) && ReadFrom(r, rows) && NewHashesDistinct(r, rows)
    requires i < |vs0| && Alone(vs0, i)
    ensures var es := FilteredBy(s.seen, s.filter, Listed(Created, r));
      Settles(s, rows, AfterRefresh(r, rows, es, next, s.now), vs0[i])
  {
    assert r.vs[i] == Prepared(vs0[i], s.user, s.feed);
    assert Alone(r.vs, i);
    RefreshUpserts(r, s.seen, s.filter, rows, next, s.now, i);
    if Key(s.feed, vs0[i].hash) !in rows { NewStatusLeaves(s, vs0, r, rows, i); }
  }

  /**
   What `Append` makes of an entry whose hash its feed has stored: one that is not written takes over
   the status of the row, unless it is imported, and one that is written keeps its own.
   */
  lemma AppendFollowsRow(s: Store, vs0: seq<EntryV>, r: Refresh, rows: Rows, i: nat)
    requires Refreshes(s, vs0, r) && ReadFrom(r, rows) && i < |vs0| && Key(s.feed, vs0[i].hash) in rows
    ensures var e, row, after := vs0[i], rows[Key(s.feed, vs0[i].hash)], AppendedAll(r)[i];
      if s.force || e.date > row.date || e.imported then IsStatusOf(after.status, e) else after.status == row.status
  {
    ClassOfRow(r, rows, i);
  }

  // ---- every row has a status ----

  ghost predicate AllSet(rows: Rows) { forall key :: key in rows ==> !rows[key].status.Unset? }

  ghost predicate AllSetIn(es: seq<EntryV>) { forall i :: 0 <= i < |es| ==> !es[i].status.Unset? }

  lemma {:induction false} UpdateKeepsSet(rows: Rows, es: seq<EntryV>, now: Time, k: nat)
    requires AllSet(rows) && AllSetIn(es) && k <= |es|
    ensures AllSet(UpdateTo(rows, es, now, k))
  {
    if k > 0 { UpdateKeepsSet(rows, es, now, k - 1); }
  }

  lemma {:induction false} InsertKeepsSet(rows: Rows, es: seq<EntryV>, next: Id, now: Time, k: nat)
    requires AllSet(rows) && AllSetIn(es) && k <= |es|
    ensures AllSet(InsertTo(rows, es, next, now, k))
  {
    if k > 0 { InsertKeepsSet(rows, es, next, now, k - 1); }
  }

  lemma {:induction false} FilterKeepsSet(seen: Seen, es: seq<EntryV>, k: nat)
    requires AllSetIn(es) && k <= |es|
    ensures AllSetIn(FilterTo(seen, es, k).entries)
  {
    if k > 0 { FilterKeepsSet(seen, es, k - 1); }
  }

  /** No row is left without a status, however the feed repeats its hashes. */
  lemma RefreshKeepsSet(s: Store, vs0: seq<EntryV>, r: Refresh, rows: Rows, next: Id)
    requires Refreshes(s, vs0, r) && ReadFrom(r, rows) && AllSet(rows)
    ensures AllSet(AfterRefresh(r, rows, FilteredBy(s.seen, s.filter, Listed(Created, r)), next, s.now))
  {
    forall t: Target ensures AllSetIn(Listed(t, r)) {
      forall j | 0 <= j < |Listed(t, r)| ensures !Listed(t, r)[j].status.Unset? { var i := ListedAt(t, r, j); }
    }
    var cs, us := Listed(Created, r), Listed(Updated, r);
    FilterKeepsSet(s.seen, cs, |cs|);
    UpdateKeepsSet(rows, us, s.now, |us|);
    InsertKeepsSet(AfterUpdates(r, rows, s.now), FilteredBy(s.seen, s.filter, cs), next, s.now, |cs|);
  }

  /** What a commit promises: entries of hashes the feed does not repeat are settled, and rows have a status. */
  ghost predicate Settled(s: Store, vs0: seq<EntryV>, rows: Rows, rows': Rows) {
    && (forall i :: 0 <= i < |vs0| && Alone(vs0, i) ==> Settles(s, rows, rows', vs0[i]))
    && (AllSet(rows) ==> AllSet(rows'))
  }

  lemma AllSettle(s: Store, vs0: seq<EntryV>, r: Refresh, rows: Rows, next: Id)
    requires Refreshes(s, vs0, r) && ReadFrom(r, rows) && NewHashesDistinct(r, rows)
    ensures Settled(s, vs0, rows, AfterRefresh(r, rows, FilteredBy(s.seen, s.filter, Listed(Created, r)), next, s.now))
  {
    forall i | 0 <= i < |vs0| && Alone(vs0, i)
      ensures Settles(s, rows, AfterRefresh(r, rows, FilteredBy(s.seen, s.filter, Listed(Created, r)), next, s.now),
        vs0[i]) {
      RefreshSettles(s, vs0, r, rows, next, i);
    }
    if AllSet(rows) { RefreshKeepsSet(s, vs0, r, rows, next); }
  }
}
