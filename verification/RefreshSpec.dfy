/**
 Values and functions a feed refresh is specified with: what an entry, a stored row and the
 classification of an entry are (internal/model/feed.go, internal/model/entry.go), and the
 cross-feed filter of a batch (internal/storage/dedup.go).

 Hashes are only compared, so they are numbers here; `content` stands for title, URL, text and
 the other columns that are copied as they are.
 */
module RefreshSpec {

  type Id = int
  type Hash = int
  type Time = int

  /** `Unset` is the empty string of an entry that was just parsed. */
  datatype Status = Unset | Unread | Read | Removed

  datatype EntryV = EntryV(userID: Id, feedID: Id, status: Status, hash: Hash, date: Time,
                           imported: bool, content: int, starred: bool)

  /** The columns `publishedEntries` reads. */
  datatype Stored = Stored(feedID: Id, status: Status, hash: Hash, date: Time)

  function KeepImported(e: EntryV, status: Status): EntryV {
    if e.imported then e else e.(status := status)
  }

  /** `Entries.RefreshFeed` on one entry. */
  function Prepared(e: EntryV, userID: Id, feedID: Id): EntryV {
    e.(userID := userID, feedID := feedID, status := if e.status.Unset? then Unread else e.status)
  }

  function PreparedAll(vs: seq<EntryV>, user: Id, feed: Id): (ps: seq<EntryV>)
    ensures |ps| == |vs| && forall i :: 0 <= i < |ps| ==> ps[i] == Prepared(vs[i], user, feed)
  {
    seq(|vs|, i requires 0 <= i < |vs| => Prepared(vs[i], user, feed))
  }

  // ---- FeedRefreshed.Append ----

  /** `mapStoredEntries`, as the overwriting loop computes it. */
  function StoredBy(feedID: Id, rows: seq<Stored>): map<Hash, Stored> {
    if rows == [] then map[] else
    var e := rows[|rows| - 1];
    var m := StoredBy(feedID, rows[..|rows| - 1]);
    if e.hash !in m || e.feedID == feedID then m[e.hash := e] else m
  }

  /** A hash resolves to the feed's own row when there is one, else to the first row listed. */
  lemma {:induction false} StoredByMeaning(feedID: Id, rows: seq<Stored>, h: Hash)
    ensures var m := StoredBy(feedID, rows);
      && (h in m <==> exists i :: 0 <= i < |rows| && rows[i].hash == h)
      && (h in m ==> m[h] in rows && m[h].hash == h)
      && (h in m && m[h].feedID != feedID ==>
            (forall i :: 0 <= i < |rows| && rows[i].hash == h ==> rows[i].feedID != feedID)
            && exists i :: 0 <= i < |rows| && rows[i] == m[h] && forall j :: 0 <= j < i ==> rows[j].hash != h)
  {
    if rows != [] {
      var init := rows[..|rows| - 1];
      StoredByMeaning(feedID, init, h);
      assert forall i :: 0 <= i < |init| ==> init[i] == rows[i];
      assert rows[|rows| - 1] in rows && forall r :: r in init ==> r in rows;
    }
  }

  datatype Class =
    | Create                 // unknown hash, or newer than another feed's copy
    | CreateRead             // another feed has it already
    | Update
    | Keep(status: Status)   // nothing new

  function ClassOf(known: map<Hash, Stored>, e: EntryV, force: bool): Class {
    if e.hash !in known then Create
    else if e.feedID != known[e.hash].feedID then
      (if !force && !(e.date > known[e.hash].date) then CreateRead else Create)
    else if force || e.date > known[e.hash].date then Update
    else Keep(known[e.hash].status)
  }

  predicate Creates(c: Class) { c.Create? || c.CreateRead? }

  /** What `Append` leaves in the entry. */
  function Appended(known: map<Hash, Stored>, e: EntryV, force: bool): EntryV {
    match ClassOf(known, e, force)
    case CreateRead => KeepImported(e, Read)
    case Keep(status) => KeepImported(e, status)
    case _ => e
  }

  /** Entries among the first `k` that another feed already has. */
  function DedupCount(known: map<Hash, Stored>, es: seq<EntryV>, force: bool, k: nat): nat
    requires k <= |es|
  {
    if k == 0 then 0 else
    DedupCount(known, es, force, k - 1) + if ClassOf(known, es[k - 1], force).CreateRead? then 1 else 0
  }

  /** Which list of the result an entry goes to. */
  datatype Target = Created | Updated

  predicate Goes(t: Target, c: Class) { if t.Created? then Creates(c) else c.Update? }

  /** Of the first `k` items (objects or values), those whose entry goes to list `t`, in order. */
  function Chosen<T>(t: Target, items: seq<T>, es: seq<EntryV>, known: map<Hash, Stored>, force: bool, k: nat): seq<T>
    requires k <= |items| == |es|
  {
    if k == 0 then [] else
    Chosen(t, items, es, known, force, k - 1)
    + if Goes(t, ClassOf(known, es[k - 1], force)) then [items[k - 1]] else []
  }

  // ---- dedupUserEntries.Filter ----

  /** Hashes a user was shown as unread in this batch, with the feed that was first. */
  type Seen = map<Hash, Id>

  datatype Filtered = Filtered(seen: Seen, entries: seq<EntryV>, dedups: nat, created: nat)

  /** Another feed of the batch was first with this unread hash. */
  predicate IsDuplicate(seen: Seen, e: EntryV) {
    e.status.Unread? && e.hash in seen && e.feedID != seen[e.hash]
  }

  predicate IsFirst(seen: Seen, e: EntryV) { e.status.Unread? && e.hash !in seen }

  /** The body of the filter's loop. */
  function FilterOne(f: Filtered, e: EntryV): Filtered {
    Filtered(
      if IsFirst(f.seen, e) then f.seen[e.hash := e.feedID] else f.seen,
      f.entries + [if IsDuplicate(f.seen, e) then KeepImported(e, Read) else e],
      f.dedups + (if IsDuplicate(f.seen, e) then 1 else 0),
      f.created + if IsFirst(f.seen, e) then 1 else 0)
  }

  /** `Filter` after its first `k` created entries. */
  function FilterTo(seen: Seen, es: seq<EntryV>, k: nat): (f: Filtered)
    requires k <= |es|
    ensures |f.entries| == k
  {
    if k == 0 then Filtered(seen, [], 0, 0) else FilterOne(FilterTo(seen, es, k - 1), es[k - 1])
  }

  /** One call of `Filter` on the created entries `es` of a feed. */
  function FilterAll(seen: Seen, es: seq<EntryV>): Filtered { FilterTo(seen, es, |es|) }

  /** The created entries as they are inserted: filtered when the store has a batch filter. */
  function FilteredBy(seen: Seen, filter: bool, cs: seq<EntryV>): seq<EntryV> {
    if filter then FilterAll(seen, cs).entries else cs
  }

  /** What the filter leaves of an entry whose hash no earlier entry of the call had. */
  function Screened(seen: Seen, e: EntryV): EntryV { if IsDuplicate(seen, e) then KeepImported(e, Read) else e }

  lemma {:induction false} FilterSkips(seen: Seen, es: seq<EntryV>, k: nat, h: Hash)
    requires k <= |es| && forall i :: 0 <= i < k ==> es[i].hash != h
    ensures var s := FilterTo(seen, es, k).seen; (h in s <==> h in seen) && (h in seen ==> s[h] == seen[h])
  {
    if k > 0 { FilterSkips(seen, es, k - 1, h); }
  }

  /** Entries with different hashes are filtered independently of each other. */
  lemma {:induction false} FilterEach(seen: Seen, es: seq<EntryV>, k: nat, j: nat)
    requires j < k <= |es| && forall i :: 0 <= i < j ==> es[i].hash != es[j].hash
    ensures FilterTo(seen, es, k).entries[j] == Screened(seen, es[j])
  {
    if j < k - 1 {
      FilterEach(seen, es, k - 1, j);
    } else {
      FilterSkips(seen, es, j, es[j].hash);
    }
  }
}
