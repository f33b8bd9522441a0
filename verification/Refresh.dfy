/**
 The entries of a feed being refreshed, as objects changed in place (internal/model/entry.go,
 internal/model/feed.go, internal/storage/dedup.go). Every method is proved against the
 functions of RefreshSpec.
 */
module Refresh {
  import opened RefreshSpec

  class Entry {
    var id: Id
    var userID: Id
    var feedID: Id
    var status: Status
    var hash: Hash
    var date: Time
    var content: int
    var starred: bool
    var stored: bool
    const imported: bool

    constructor (hash: Hash, date: Time, status: Status, content: int, starred: bool, imported: bool)
      ensures View() == EntryV(0, 0, status, hash, date, imported, content, starred)
      ensures !stored && id == 0
    {
      this.id, this.userID, this.feedID, this.status := 0, 0, 0, status;
      this.hash, this.date, this.content, this.starred := hash, date, content, starred;
      this.imported, this.stored := imported, false;
    }

    function View(): EntryV
      reads this
    {
      EntryV(userID, feedID, status, hash, date, imported, content, starred)
    }

    /** `KeepImportedStatus`. */
    method KeepImportedStatus(value: Status)
      modifies this`status
      ensures View() == KeepImported(old(View()), value)
    {
      if !imported { status := value; }
    }
  }

  /** No object is listed twice, as in a freshly parsed feed. */
  ghost predicate Separate(entries: seq<Entry>) {
    forall i, j :: 0 <= i < j < |entries| ==> entries[i] != entries[j]
  }

  /** The entries have these values. */
  ghost predicate Shows(entries: seq<Entry>, vs: seq<EntryV>)
    reads entries
  {
    |vs| == |entries| && forall i :: 0 <= i < |entries| ==> entries[i].View() == vs[i]
  }

  /** `Entries.RefreshFeed`: returns the hashes. */
  method RefreshFeed(entries: seq<Entry>, userID: Id, feedID: Id, ghost vs: seq<EntryV>) returns (hashes: seq<Hash>)
    requires Separate(entries) && Shows(entries, vs)
    modifies entries`userID, entries`feedID, entries`status
    ensures |hashes| == |vs| && forall i :: 0 <= i < |vs| ==> hashes[i] == vs[i].hash
    ensures forall i :: 0 <= i < |entries| ==> entries[i].View() == Prepared(vs[i], userID, feedID)
    ensures forall i :: 0 <= i < |entries| ==>
      var e := entries[i];
      && e.userID == userID && e.feedID == feedID && e.hash == vs[i].hash
      && e.status == (if vs[i].status.Unset? then Unread else vs[i].status)
  {
    hashes := [];
    for k := 0 to |entries|
      invariant |hashes| == k && forall i :: 0 <= i < k ==> hashes[i] == vs[i].hash
      invariant forall i :: 0 <= i < k ==> entries[i].View() == Prepared(vs[i], userID, feedID)
      invariant forall i :: k <= i < |entries| ==> entries[i].View() == vs[i]
    {
      var e := entries[k];
      e.userID, e.feedID := userID, feedID;
      if e.status == Unset { e.status := Unread; }
      hashes := hashes + [e.hash];
    }
  }

  /** `mapStoredEntries`. */
  method MapStoredEntries(feedID: Id, rows: seq<Stored>) returns (byHash: map<Hash, Stored>)
    ensures byHash == StoredBy(feedID, rows)
  {
    byHash := map[];
    for i := 0 to |rows|
      invariant byHash == StoredBy(feedID, rows[..i])
    {
      assert rows[..i + 1][..i] == rows[..i];
      var e := rows[i];
      if e.hash !in byHash || e.feedID == feedID { byHash := byHash[e.hash := e]; }
    }
    assert rows[..|rows|] == rows;
  }

  class FeedRefreshed {
    var created: seq<Entry>
    var updated: seq<Entry>
    var dedups: nat
    var forceUpdate: bool

    constructor (force: bool)
      ensures created == [] && updated == [] && dedups == 0 && forceUpdate == force
    {
      created, updated, dedups, forceUpdate := [], [], 0, force;
    }

    /** The body of the loop in `Append`. */
    method AppendOne(e: Entry, storedBy: map<Hash, Stored>)
      modifies this`created, this`updated, this`dedups, e`status
      ensures var c := ClassOf(storedBy, old(e.View()), forceUpdate);
        && created == old(created) + (if Goes(Created, c) then [e] else [])
        && updated == old(updated) + (if Goes(Updated, c) then [e] else [])
        && dedups == old(dedups) + (if c.CreateRead? then 1 else 0)
        && e.View() == Appended(storedBy, old(e.View()), forceUpdate)
    {
      if e.hash !in storedBy {
        created := created + [e];
      } else if e.feedID != storedBy[e.hash].feedID {
        if !forceUpdate && !(e.date > storedBy[e.hash].date) {
          e.KeepImportedStatus(Read);
          dedups := dedups + 1;
        }
        created := created + [e];
      } else if forceUpdate || e.date > storedBy[e.hash].date {
        updated := updated + [e];
      } else {
        e.KeepImportedStatus(storedBy[e.hash].status);
      }
    }

    /** `Append` on a fresh result: sort the feed's entries into created, updated and known ones. */
    method Append(feedID: Id, feedEntries: seq<Entry>, storedEntries: seq<Stored>, ghost vs: seq<EntryV>)
      requires Separate(feedEntries) && Shows(feedEntries, vs) && created == [] && updated == [] && dedups == 0
      modifies this`created, this`updated, this`dedups, feedEntries`status
      ensures var known := StoredBy(feedID, storedEntries);
        && created == Chosen(Created, feedEntries, vs, known, forceUpdate, |vs|)
        && updated == Chosen(Updated, feedEntries, vs, known, forceUpdate, |vs|)
        && dedups == DedupCount(known, vs, forceUpdate, |vs|)
        && (forall i :: 0 <= i < |feedEntries| ==> feedEntries[i].View() == Appended(known, vs[i], forceUpdate))
    {
      var storedBy := MapStoredEntries(feedID, storedEntries);
      if |storedBy| == 0 {
        created := feedEntries;
        AllCreated(storedBy, feedEntries, vs, forceUpdate, |vs|);
        return;
      }
      AppendAll(feedEntries, storedBy, vs);
    }

    /** The loop of `Append`. */
    method AppendAll(feedEntries: seq<Entry>, storedBy: map<Hash, Stored>, ghost vs: seq<EntryV>)
      requires Separate(feedEntries) && Shows(feedEntries, vs) && created == [] && updated == [] && dedups == 0
      modifies this`created, this`updated, this`dedups, feedEntries`status
      ensures created == Chosen(Created, feedEntries, vs, storedBy, forceUpdate, |vs|)
      ensures updated == Chosen(Updated, feedEntries, vs, storedBy, forceUpdate, |vs|)
      ensures dedups == DedupCount(storedBy, vs, forceUpdate, |vs|)
      ensures forall i :: 0 <= i < |feedEntries| ==> feedEntries[i].View() == Appended(storedBy, vs[i], forceUpdate)
    {
      for k := 0 to |feedEntries|
        invariant created == Chosen(Created, feedEntries, vs, storedBy, forceUpdate, k)
        invariant updated == Chosen(Updated, feedEntries, vs, storedBy, forceUpdate, k)
        invariant dedups == DedupCount(storedBy, vs, forceUpdate, k)
        invariant forall i :: 0 <= i < k ==> feedEntries[i].View() == Appended(storedBy, vs[i], forceUpdate)
        invariant forall i :: k <= i < |feedEntries| ==> feedEntries[i].View() == vs[i]
      {
        assert forall i :: 0 <= i < |feedEntries| && i != k ==> feedEntries[i] != feedEntries[k];
        AppendOne(feedEntries[k], storedBy);
      }
    }
  }

  lemma {:induction false} AllCreated<T>(known: map<Hash, Stored>, items: seq<T>, vs: seq<EntryV>, force: bool, k: nat)
    requires known == map[] && k <= |items| == |vs|
    ensures Chosen(Created, items, vs, known, force, k) == items[..k]
      && Chosen(Updated, items, vs, known, force, k) == []
    ensures DedupCount(known, vs, force, k) == 0
  {
    if k > 0 { AllCreated(known, items, vs, force, k - 1); }
  }

  /** `dedupUserEntries`: the hashes of one user. */
  class UserHashes {
    var hashes: Seen

    constructor ()
      ensures hashes == map[]
    {
      hashes := map[];
    }

    /** The body of the loop in `Filter`. */
    method FilterOne(e: Entry, r: FeedRefreshed) returns (created: nat)
      modifies this, r`dedups, e`status
      ensures var v := old(e.View());
        && hashes == (if IsFirst(old(hashes), v) then old(hashes)[v.hash := v.feedID] else old(hashes))
        && e.View() == (if IsDuplicate(old(hashes), v) then KeepImported(v, Read) else v)
        && r.dedups == old(r.dedups) + (if IsDuplicate(old(hashes), v) then 1 else 0)
        && created == if IsFirst(old(hashes), v) then 1 else 0
    {
      created := 0;
      if e.status == Unread {
        if e.hash in hashes && e.feedID != hashes[e.hash] {
          e.KeepImportedStatus(Read);
          r.dedups := r.dedups + 1;
        } else if e.hash !in hashes {
          hashes := hashes[e.hash := e.feedID];
          created := 1;
        }
      }
    }

    /** `Filter`, under the user's lock. The loop reads `Created.Unread()` as it goes. */
    method Filter(r: FeedRefreshed, ghost vs: seq<EntryV>) returns (created: nat)
      requires Separate(r.created) && Shows(r.created, vs)
      modifies this, r`dedups, r.created`status
      ensures var f := FilterAll(old(hashes), vs);
        && hashes == f.seen && created == f.created
        && r.dedups == old(r.dedups) + f.dedups
        && Shows(r.created, f.entries)
    {
      created := 0;
      ghost var f := FilterTo(hashes, vs, 0);
      for k := 0 to |r.created|
        invariant f == FilterTo(old(hashes), vs, k)
        invariant hashes == f.seen && created == f.created && r.dedups == old(r.dedups) + f.dedups
        invariant forall i :: 0 <= i < k ==> r.created[i].View() == f.entries[i]
        invariant forall i :: k <= i < |r.created| ==> r.created[i].View() == vs[i]
      {
        assert forall i :: 0 <= i < |r.created| && i != k ==> r.created[i] != r.created[k];
        var n := FilterOne(r.created[k], r);
        created := created + n;
        f := RefreshSpec.FilterOne(f, vs[k]);
      }
    }
  }

  /** `DedupEntries`: one `UserHashes` per user, and the batch-wide counter. */
  class DedupEntries {
    var hashes: map<Id, UserHashes>
    var created: nat

    constructor ()
      ensures hashes == map[] && created == 0
    {
      hashes, created := map[], 0;
    }

    /** Users do not share their hashes. */
    ghost predicate Valid()
      reads this
    {
      forall u, v :: u in hashes && v in hashes && u != v ==> hashes[u] != hashes[v]
    }

    ghost function SeenBy(user: Id): Seen
      reads this, hashes.Values
    {
      if user in hashes then hashes[user].hashes else map[]
    }

    /** `userHashes`: get or create, under the lock of the outer map. */
    method UserHashesOf(user: Id) returns (h: UserHashes)
      requires Valid()
      modifies this`hashes
      ensures Valid() && user in hashes && hashes[user] == h && h.hashes == old(SeenBy(user))
      ensures forall u :: u in old(hashes) ==> u in hashes && hashes[u] == old(hashes[u])
      ensures forall u :: u in hashes && u != user ==> u in old(hashes)
      ensures user !in old(hashes) ==> fresh(h)
    {
      if user in hashes {
        h := hashes[user];
      } else {
        h := new UserHashes();
        hashes := hashes[user := h];
      }
    }

    /** `Filter` of one refreshed feed. */
    method Filter(user: Id, r: FeedRefreshed, ghost vs: seq<EntryV>)
      requires Valid() && Separate(r.created) && Shows(r.created, vs)
      modifies this, hashes.Values, r`dedups, r.created`status
      ensures Valid()
      ensures forall u :: u in old(hashes) ==> u in hashes && hashes[u] == old(hashes[u])
      ensures forall u :: u in hashes && u !in old(hashes) ==> fresh(hashes[u])
      ensures var f := FilterAll(old(SeenBy(user)), vs);
        && (forall u :: SeenBy(u) == if u == user then f.seen else old(SeenBy(u)))
        && created == old(created) + f.created
        && r.dedups == old(r.dedups) + f.dedups
        && Shows(r.created, f.entries)
    {
      if |r.created| == 0 { return; }
      var h := UserHashesOf(user);
      assert forall u :: u in hashes && u != user ==> u in old(hashes) && hashes[u] != h;
      var n := h.Filter(r, vs);
      created := created + n;
    }
  }
}
