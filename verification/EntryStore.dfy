/**
 The storage side of a refresh: the statements of internal/storage/entry.go, run on a table
 object and writing ids back into the entry objects.
 */
module EntryStore {
  import opened RefreshSpec
  import opened EntryRows
  import opened Refresh
  import M = StoreMeaning
  import U = UpsertSpec

  /** The in-memory entries carry the ids of their own rows and are marked stored. */
  ghost predicate Linked(entries: seq<Entry>, vs: seq<EntryV>, rows: Rows)
    requires |entries| == |vs|
    reads entries
  {
    forall i :: 0 <= i < |entries| ==>
      KeyOf(vs[i]) in rows && entries[i].id == rows[KeyOf(vs[i])].id && entries[i].stored
  }

  /** The index maps every hash to its entry. */
  ghost predicate Indexed(entries: seq<Entry>, vs: seq<EntryV>, byHash: map<Hash, Entry>)
    requires |entries| == |vs|
    reads byHash.Values
  {
    && (forall h :: h in byHash ==> byHash[h] in entries && byHash[h].hash == h)
    && (forall i :: 0 <= i < |vs| ==> vs[i].hash in byHash && byHash[vs[i].hash] == entries[i])
  }

  /** Entries with consecutive ids carry the ids of the rows inserted for them. */
  lemma InsertedAreLinked(entries: seq<Entry>, vs: seq<EntryV>, rows: Rows, next: Id, now: Time)
    requires |entries| == |vs| && CanInsert(rows, vs, |vs|)
    requires forall i :: 0 <= i < |entries| ==> entries[i].id == next + i && entries[i].stored
    ensures Linked(entries, vs, InsertTo(rows, vs, next, now, |vs|))
  {
    InsertMeaning(rows, vs, next, now, |vs|);
  }

  class EntryTable {
    var rows: Rows
    var nextID: Id

    constructor ()
      ensures rows == map[]
    {
      rows, nextID := map[], 1;
    }

    /** `publishedEntries`: the order of the answer is the database's choice. */
    method PublishedEntries(user: Id, hashes: seq<Hash>) returns (answer: seq<Stored>)
      ensures IsPublished(rows, user, hashes, answer)
    {
      answer := [];
      var todo := rows.Keys;
      while todo != {}
        invariant todo <= rows.Keys
        invariant forall i :: 0 <= i < |answer| ==>
          var key := Key(answer[i].feedID, answer[i].hash);
          Published(rows, user, hashes, key) && answer[i] == StoredOf(key, rows[key])
        invariant forall i :: 0 <= i < |answer| ==> Key(answer[i].feedID, answer[i].hash) !in todo
        invariant OnceEach(answer)
        invariant forall key :: Published(rows, user, hashes, key) && key !in todo ==>
          StoredOf(key, rows[key]) in answer
        decreases todo
      {
        var key :| key in todo;
        todo := todo - {key};
        if rows[key].userID == user && key.hash in hashes {
          answer := answer + [StoredOf(key, rows[key])];
        }
      }
    }

    /** `updateEntries`: one UPDATE per entry, failing when it returns no row. */
    method UpdateEntries(entries: seq<Entry>, now: Time, ghost vs: seq<EntryV>) returns (ok: bool)
      requires Separate(entries) && Shows(entries, vs)
      modifies this`rows, entries`id
      ensures ok <==> AllHit(old(rows), vs)
      ensures ok <==> forall i :: 0 <= i < |vs| ==>
        var key := Key(vs[i].feedID, vs[i].hash); key in old(rows) && old(rows)[key].userID == vs[i].userID
      ensures ok ==> rows == UpdateTo(old(rows), vs, now, |vs|)
      ensures ok ==> forall i :: 0 <= i < |entries| ==> entries[i].id == old(rows)[KeyOf(vs[i])].id
    {
      ok := true;
      for k := 0 to |entries|
        invariant rows == UpdateTo(old(rows), vs, now, k)
        invariant forall key :: key in rows ==>
          rows[key].id == old(rows)[key].id && rows[key].userID == old(rows)[key].userID
        invariant forall i :: 0 <= i < k ==> Hits(old(rows), vs[i]) && entries[i].id == old(rows)[KeyOf(vs[i])].id
      {
        var v := entries[k].View();
        var key := KeyOf(v);
        if key !in rows || rows[key].userID != v.userID { ok := false; return; }
        rows := rows[key := UpdatedRow(rows[key], v, now)];
        entries[k].id := rows[key].id;
      }
    }

    /** One row going in, or the unique index refusing it. */
    method InsertRow(v: EntryV, now: Time) returns (ok: bool, id: Id)
      modifies this
      ensures ok <==> KeyOf(v) !in old(rows)
      ensures ok ==> rows == old(rows)[KeyOf(v) := NewRow(v, old(nextID), now)] && nextID == old(nextID) + 1
      ensures id == old(nextID)
      ensures !ok ==> rows == old(rows) && nextID == old(nextID)
    {
      ok, id := KeyOf(v) !in rows, nextID;
      if ok {
        rows := rows[KeyOf(v) := NewRow(v, nextID, now)];
        nextID := nextID + 1;
      }
    }

    /** The same, for the `k`-th of the entries `vs` going into `rows0`. */
    method InsertNth(v: EntryV, now: Time, ghost vs: seq<EntryV>, ghost k: nat, ghost rows0: Rows, ghost next0: Id)
        returns (ok: bool, id: Id)
      requires k < |vs| && v == vs[k] && CanInsert(rows0, vs, k)
      requires rows == InsertTo(rows0, vs, next0, now, k) && nextID == next0 + k
      modifies this
      ensures ok ==> CanInsert(rows0, vs, k + 1) && nextID == next0 + k + 1
      ensures ok ==> rows == InsertTo(rows0, vs, next0, now, k + 1)
      ensures !ok ==> !CanInsert(rows0, vs, |vs|)
      ensures id == next0 + k
    {
      InsertStep(rows0, vs, next0, now, k);
      ok, id := InsertRow(v, now);
    }

    /** `batchCreateEntries`: one INSERT ... RETURNING per entry. */
    method BatchCreateEntries(entries: seq<Entry>, now: Time, ghost vs: seq<EntryV>) returns (ok: bool)
      requires Separate(entries) && Shows(entries, vs)
      modifies this, entries`id, entries`stored
      ensures ok <==> CanInsert(old(rows), vs, |vs|)
      ensures ok ==> rows == InsertTo(old(rows), vs, old(nextID), now, |vs|)
      ensures ok ==> Linked(entries, vs, rows)
    {
      ok := true;
      for k := 0 to |entries|
        invariant ok && CanInsert(old(rows), vs, k)
        invariant rows == InsertTo(old(rows), vs, old(nextID), now, k) && nextID == old(nextID) + k
        invariant forall i :: 0 <= i < k ==> entries[i].id == old(nextID) + i && entries[i].stored
      {
        var id;
        ok, id := InsertNth(entries[k].View(), now, vs, k, old(rows), old(nextID));
        if !ok { return; }
        entries[k].id, entries[k].stored := id, true;
      }
      InsertedAreLinked(entries, vs, old(rows), old(nextID), now);
    }

    /** The COPY of the bulk path, and the hash index it fills on the way. */
    method CopyFrom(entries: seq<Entry>, now: Time, ghost vs: seq<EntryV>)
      returns (ok: bool, byHash: map<Hash, Entry>)
      requires Separate(entries) && Shows(entries, vs)
      requires forall i :: 0 <= i < |vs| ==> vs[i].feedID == vs[0].feedID
      modifies this
      ensures ok <==> CanInsert(old(rows), vs, |vs|)
      ensures ok ==> rows == InsertTo(old(rows), vs, old(nextID), now, |vs|)
      ensures ok ==> Indexed(entries, vs, byHash)
    {
      ok, byHash := true, map[];
      for k := 0 to |entries|
        invariant ok && CanInsert(old(rows), vs, k)
        invariant rows == InsertTo(old(rows), vs, old(nextID), now, k) && nextID == old(nextID) + k
        invariant forall h :: h in byHash ==> byHash[h] in entries && byHash[h].hash == h
        invariant forall i :: 0 <= i < k ==> vs[i].hash in byHash && byHash[vs[i].hash] == entries[i]
      {
        var id;
        ok, id := InsertNth(entries[k].View(), now, vs, k, old(rows), old(nextID));
        if !ok { return; }
        assert forall i :: 0 <= i < k ==> vs[i].hash != vs[k].hash by { assert CanInsert(old(rows), vs, k + 1); }
        byHash := byHash[entries[k].hash := entries[k]];
      }
    }

    /** The SELECT behind the COPY: each row finds its entry through the hash index. */
    method LinkByHash(entries: seq<Entry>, feed: Id, byHash: map<Hash, Entry>, ghost vs: seq<EntryV>)
      requires Separate(entries) && Shows(entries, vs) && Indexed(entries, vs, byHash)
      requires forall i :: 0 <= i < |vs| ==> vs[i].feedID == feed && KeyOf(vs[i]) in rows
      modifies entries`id, entries`stored
      ensures Linked(entries, vs, rows)
    {
      var todo := set h | h in byHash && Key(feed, h) in rows;
      while todo != {}
        invariant forall h :: h in todo ==> h in byHash && Key(feed, h) in rows
        invariant forall i :: 0 <= i < |vs| && vs[i].hash !in todo ==>
          entries[i].id == rows[KeyOf(vs[i])].id && entries[i].stored
        decreases todo
      {
        var h :| h in todo;
        todo := todo - {h};
        var e := byHash[h];
        e.id, e.stored := rows[Key(feed, h)].id, true;
      }
    }

    /** `createEntries`: small lists go one by one, larger ones through COPY. */
    method CreateEntries(entries: seq<Entry>, now: Time, ghost vs: seq<EntryV>) returns (ok: bool)
      requires Separate(entries) && Shows(entries, vs)
      requires forall i :: 0 <= i < |vs| ==> vs[i].feedID == vs[0].feedID
      modifies this, entries`id, entries`stored
      ensures ok <==> CanInsert(old(rows), vs, |vs|)
      ensures ok ==> rows == InsertTo(old(rows), vs, old(nextID), now, |vs|)
      ensures ok ==> Linked(entries, vs, rows)
    {
      if |entries| == 0 { return true; }
      if |entries| <= 2 {
        ok := BatchCreateEntries(entries, now, vs);
        return;
      }
      var byHash;
      ok, byHash := CopyFrom(entries, now, vs);
      if ok {
        InsertMeaning(old(rows), vs, old(nextID), now, |vs|);
        LinkByHash(entries, entries[0].feedID, byHash, vs);
      }
    }

    /** The first half of `knownEntries`: stamp, look up, classify. */
    method ClassifyEntries(user: Id, feed: Id, entries: seq<Entry>, force: bool, ghost vs0: seq<EntryV>)
      returns (refreshed: FeedRefreshed, ghost r: U.Refresh)
      requires Separate(entries) && Shows(entries, vs0) && U.FeedOwned(rows, user, feed)
      modifies entries`userID, entries`feedID, entries`status
      ensures fresh(refreshed)
      ensures r == U.Refresh(user, feed, PreparedAll(vs0, user, feed), force, r.answer) && U.ReadFrom(r, rows)
      ensures SortedOut(entries, refreshed, r)
      ensures Shows(refreshed.created, U.Listed(Created, r))
    {
      ghost var vs := PreparedAll(vs0, user, feed);
      var hashes := RefreshFeed(entries, user, feed, vs0);
      assert hashes == U.HashesOf(vs);
      var answer := PublishedEntries(user, hashes);
      r := U.Refresh(user, feed, vs, force, answer);
      refreshed := new FeedRefreshed(force);
      refreshed.Append(feed, entries, answer, vs);
      NowSortedOut(entries, refreshed, r);
    }

    /** `knownEntries`: classify, then filter against the batch when the store has a filter. */
    method KnownEntries(user: Id, feed: Id, entries: seq<Entry>, force: bool, dd: DedupEntries?, ghost vs0: seq<EntryV>,
        ghost seen: Seen)
      returns (refreshed: FeedRefreshed, ghost r: U.Refresh, ghost es: seq<EntryV>)
      requires Separate(entries) && Shows(entries, vs0) && U.FeedOwned(rows, user, feed)
      requires seen == SeenIn(dd, user) && (dd != null ==> dd.Valid())
      modifies entries`userID, entries`feedID, entries`status, DedupParts(dd)
      ensures fresh(refreshed)
      ensures r == U.Refresh(user, feed, PreparedAll(vs0, user, feed), force, r.answer) && U.ReadFrom(r, rows)
      ensures es == FilteredBy(seen, dd != null, U.Listed(Created, r))
      ensures dd != null ==> dd.Valid() && dd.SeenBy(user) == FilterAll(seen, U.Listed(Created, r)).seen
      ensures SortedOut(entries, refreshed, r)
      ensures Shows(refreshed.created, es)
    {
      refreshed, r := ClassifyEntries(user, feed, entries, force, vs0);
      es := FilterCreated(dd, user, entries, refreshed, r, seen);
    }

    /** The second half of `knownEntries`. */
    method FilterCreated(dd: DedupEntries?, user: Id, ghost entries: seq<Entry>, refreshed: FeedRefreshed,
        ghost r: U.Refresh, ghost seen: Seen)
      returns (ghost es: seq<EntryV>)
      requires seen == SeenIn(dd, user) && (dd != null ==> dd.Valid())
      requires |entries| == |r.vs| && SortedOut(entries, refreshed, r) && Shows(refreshed.created, U.Listed(Created, r))
      modifies DedupParts(dd), refreshed`dedups, refreshed.created`status
      ensures es == FilteredBy(seen, dd != null, U.Listed(Created, r))
      ensures dd != null ==> dd.Valid() && dd.SeenBy(user) == FilterAll(seen, U.Listed(Created, r)).seen
      ensures SortedOut(entries, refreshed, r) && Shows(refreshed.created, es)
    {
      es := U.Listed(Created, r);
      if dd != null {
        FilterBatch(dd, user, entries, refreshed, r);
        es := FilterAll(seen, es).entries;
      }
    }

    method FilterBatch(dd: DedupEntries, user: Id, ghost entries: seq<Entry>, refreshed: FeedRefreshed,
        ghost r: U.Refresh)
      requires dd.Valid() && |entries| == |r.vs| && SortedOut(entries, refreshed, r)
      requires Shows(refreshed.created, U.Listed(Created, r))
      modifies dd, dd.hashes.Values, refreshed`dedups, refreshed.created`status
      ensures dd.Valid() && SortedOut(entries, refreshed, r)
      ensures var f := FilterAll(old(dd.SeenBy(user)), U.Listed(Created, r));
        dd.SeenBy(user) == f.seen && Shows(refreshed.created, f.entries)
    {
      ghost var cs := U.Listed(Created, r);
      dd.Filter(user, refreshed, cs);
      assert Shows(refreshed.updated, U.Listed(Updated, r));
    }

    /** `refreshEntries`: the statements of one refresh. */
    method RefreshEntries(user: Id, feed: Id, entries: seq<Entry>, force: bool, now: Time, dd: DedupEntries?,
        ghost vs0: seq<EntryV>, ghost seen: Seen)
      returns (ok: bool, refreshed: FeedRefreshed, ghost r: U.Refresh, ghost es: seq<EntryV>)
      requires Separate(entries) && Shows(entries, vs0) && U.FeedOwned(rows, user, feed)
      requires seen == SeenIn(dd, user) && (dd != null ==> dd.Valid())
      modifies this, entries`id, entries`stored, entries`userID, entries`feedID, entries`status, DedupParts(dd)
      ensures r == U.Refresh(user, feed, PreparedAll(vs0, user, feed), force, r.answer) && U.ReadFrom(r, old(rows))
      ensures es == FilteredBy(seen, dd != null, U.Listed(Created, r))
      ensures ok <==> U.NewHashesDistinct(r, old(rows))
      ensures ok ==> rows == U.AfterRefresh(r, old(rows), es, old(nextID), now)
      ensures ok ==> |refreshed.created| == |es| && Linked(refreshed.created, es, rows)
    {
      ghost var rows0, next0 := rows, nextID;
      refreshed, r, es := KnownEntries(user, feed, entries, force, dd, vs0, seen);
      assert rows == rows0 && nextID == next0;
      ok := WriteFiltered(entries, refreshed, now, r, es, seen, dd != null, rows0, next0);
    }

    method WriteFiltered(ghost entries: seq<Entry>, refreshed: FeedRefreshed, now: Time, ghost r: U.Refresh,
        ghost es: seq<EntryV>,
                         ghost seen: Seen, ghost filter: bool, ghost rows0: Rows, ghost next0: Id) returns (ok: bool)
      requires rows == rows0 && nextID == next0
      requires |entries| == |r.vs| && SortedOut(entries, refreshed, r) && Shows(refreshed.created, es)
      requires U.ReadFrom(r, rows0) && es == FilteredBy(seen, filter, U.Listed(Created, r))
      modifies this, refreshed.created`id, refreshed.created`stored, refreshed.updated`id
      ensures ok <==> U.NewHashesDistinct(r, rows0)
      ensures ok ==> rows == U.AfterRefresh(r, rows0, es, next0, now)
      ensures ok ==> Linked(refreshed.created, es, rows)
    {
      FilterKeeps(seen, filter, r, rows0, now);
      U.UpdatedArePresent(r, rows0);
      ok := WriteEntries(entries, refreshed, now, r, es, rows0, next0);
    }

    /** The UPDATEs and INSERTs of a classified refresh. */
    method WriteEntries(ghost entries: seq<Entry>, refreshed: FeedRefreshed, now: Time, ghost r: U.Refresh,
        ghost es: seq<EntryV>,
                        ghost rows0: Rows, ghost next0: Id) returns (ok: bool)
      requires rows == rows0 && nextID == next0
      requires |entries| == |r.vs| && SortedOut(entries, refreshed, r) && Shows(refreshed.created, es)
      requires AllHit(rows0, U.Listed(Updated, r)) && Writable(r, rows0, es, now)
      modifies this, refreshed.created`id, refreshed.created`stored, refreshed.updated`id
      ensures ok <==> U.NewHashesDistinct(r, rows0)
      ensures ok ==> rows == U.AfterRefresh(r, rows0, es, next0, now)
      ensures ok ==> Linked(refreshed.created, es, rows)
    {
      var hit := UpdateEntries(refreshed.updated, now, U.Listed(Updated, r));
      assert Shows(refreshed.created, es);
      ok := CreateEntries(refreshed.created, now, es);
    }

    /** `StoreFeedEntries`: the refresh as one transaction. */
    method StoreFeedEntries(user: Id, feed: Id, entries: seq<Entry>, force: bool, now: Time, dd: DedupEntries?,
        ghost vs0: seq<EntryV>)
      returns (ok: bool, refreshed: FeedRefreshed, ghost r: U.Refresh, ghost es: seq<EntryV>)
      requires Separate(entries) && Shows(entries, vs0) && U.FeedOwned(rows, user, feed)
      requires dd != null ==> dd.Valid()
      modifies this, entries`id, entries`stored, entries`userID, entries`feedID, entries`status, DedupParts(dd)
      ensures r == U.Refresh(user, feed, PreparedAll(vs0, user, feed), force, r.answer) && U.ReadFrom(r, old(rows))
      ensures es == FilteredBy(old(SeenIn(dd, user)), dd != null, U.Listed(Created, r))
      ensures ok <==> U.NewHashesDistinct(r, old(rows))
      ensures ok ==> rows == U.AfterRefresh(r, old(rows), es, old(nextID), now)
      ensures ok ==> |refreshed.created| == |es| && Linked(refreshed.created, es, rows)
      ensures !ok ==> rows == old(rows)
      ensures ok ==> M.Settled(M.Store(user, feed, force, now, dd != null, old(SeenIn(dd, user))), vs0, old(rows), rows)
    {
      if |entries| == 0 {
        ok := true;
        refreshed := new FeedRefreshed(false);
        r, es := U.Refresh(user, feed, [], force, []), [];
        return;
      }
      var saved := rows;
      ghost var rows0, next0, seen := rows, nextID, SeenIn(dd, user);
      ok, refreshed, r, es := RefreshEntries(user, feed, entries, force, now, dd, vs0, seen);
      if ok { M.AllSettle(M.Store(user, feed, force, now, dd != null, seen), vs0, r, rows0, next0); }
      if !ok { rows := saved; }
    }
  }

  /** `es` may be inserted for `r`: one feed, and a commit exactly when the new hashes are distinct. */
  ghost predicate Writable(r: U.Refresh, rows: Rows, es: seq<EntryV>, now: Time) {
    && (forall j :: 0 <= j < |es| ==> es[j].feedID == es[0].feedID)
    && (CanInsert(U.AfterUpdates(r, rows, now), es, |es|) <==> U.NewHashesDistinct(r, rows))
  }

  /** The filter changes statuses only, so the created entries are still those of the classification. */
  lemma FilterKeeps(seen: Seen, filter: bool, r: U.Refresh, rows: Rows, now: Time)
    requires U.ReadFrom(r, rows)
    ensures var cs := U.Listed(Created, r); var es := FilteredBy(seen, filter, cs);
      && U.SameButStatus(es, cs)
      && Writable(r, rows, es, now)
  {
    var cs := U.Listed(Created, r);
    var es := FilteredBy(seen, filter, cs);
    U.FilteredIsSame(seen, filter, cs);
    U.CommitsIff(r, rows, es, now);
    forall j | 0 <= j < |es| ensures es[j].feedID == r.feed { var i := U.ListedAt(Created, r, j); }
  }

  /** The result lists of a classified refresh: where its entries went, and the values to update with. */
  ghost predicate SortedOut(entries: seq<Entry>, refreshed: FeedRefreshed, r: U.Refresh)
    requires |entries| == |r.vs|
    reads refreshed, refreshed.updated
  {
    && refreshed.created == Chosen(Created, entries, r.vs, U.Known(r), r.force, |r.vs|)
    && refreshed.updated == Chosen(Updated, entries, r.vs, U.Known(r), r.force, |r.vs|)
    && Separate(refreshed.created) && Separate(refreshed.updated)
    && (forall i :: 0 <= i < |refreshed.created| ==> refreshed.created[i] in entries)
    && (forall i :: 0 <= i < |refreshed.updated| ==>
      refreshed.updated[i] in entries && refreshed.updated[i] !in refreshed.created)
    && Shows(refreshed.updated, U.Listed(Updated, r))
  }

  ghost function DedupParts(dd: DedupEntries?): set<object>
    reads if dd == null then {} else {dd}
  {
    if dd == null then {} else {dd} + dd.hashes.Values
  }

  ghost function SeenIn(dd: DedupEntries?, user: Id): Seen
    reads DedupParts(dd), if dd == null then {} else {dd}
  {
    if dd == null then map[] else dd.SeenBy(user)
  }

  lemma NowSortedOut(entries: seq<Entry>, refreshed: FeedRefreshed, r: U.Refresh)
    requires Separate(entries) && |entries| == |r.vs| && Shows(entries, U.AppendedAll(r))
    requires refreshed.created == Chosen(Created, entries, r.vs, U.Known(r), r.force, |r.vs|)
    requires refreshed.updated == Chosen(Updated, entries, r.vs, U.Known(r), r.force, |r.vs|)
    ensures SortedOut(entries, refreshed, r) && Shows(refreshed.created, U.Listed(Created, r))
  {
    ChosenShows(Created, entries, r, |r.vs|);
    ChosenShows(Updated, entries, r, |r.vs|);
    ChosenSeparate(Created, entries, r, |r.vs|);
    ChosenSeparate(Updated, entries, r, |r.vs|);
    ChosenApart(entries, r, |r.vs|);
    assert entries[..|r.vs|] == entries;
    forall i | 0 <= i < |refreshed.created| ensures refreshed.created[i] in entries {
      assert refreshed.created[i] in refreshed.created;
    }
    forall i | 0 <= i < |refreshed.updated|
      ensures refreshed.updated[i] in entries && refreshed.updated[i] !in refreshed.created {
      assert refreshed.updated[i] in refreshed.updated;
    }
  }

  lemma {:induction false} ChosenShows(t: Target, entries: seq<Entry>, r: U.Refresh, k: nat)
    requires Shows(entries, U.AppendedAll(r)) && k <= |r.vs|
    ensures Shows(Chosen(t, entries, r.vs, U.Known(r), r.force, k),
      Chosen(t, U.AppendedAll(r), r.vs, U.Known(r), r.force, k))
  {
    if k > 0 { ChosenShows(t, entries, r, k - 1); }
  }

  lemma {:induction false} ChosenSeparate(t: Target, entries: seq<Entry>, r: U.Refresh, k: nat)
    requires Separate(entries) && k <= |entries| == |r.vs|
    ensures Separate(Chosen(t, entries, r.vs, U.Known(r), r.force, k))
    ensures forall e :: e in Chosen(t, entries, r.vs, U.Known(r), r.force, k) ==> e in entries[..k]
  {
    if k > 0 {
      ChosenSeparate(t, entries, r, k - 1);
      assert entries[k - 1] !in entries[..k - 1];
      assert entries[..k] == entries[..k - 1] + [entries[k - 1]];
    }
  }

  /** No entry is both created and updated. */
  lemma {:induction false} ChosenApart(entries: seq<Entry>, r: U.Refresh, k: nat)
    requires Separate(entries) && k <= |entries| == |r.vs|
    ensures forall e :: e in Chosen(Created, entries, r.vs, U.Known(r), r.force, k) ==>
      e in entries[..k] && e !in Chosen(Updated, entries, r.vs, U.Known(r), r.force, k)
    ensures forall e :: e in Chosen(Updated, entries, r.vs, U.Known(r), r.force, k) ==> e in entries[..k]
  {
    if k > 0 {
      ChosenApart(entries, r, k - 1);
      assert entries[k - 1] !in entries[..k - 1];
      assert entries[..k] == entries[..k - 1] + [entries[k - 1]];
    }
  }
}
