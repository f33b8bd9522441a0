/**
 What a refresh means for the `entries` table: classification, filter, UPDATEs and INSERTs
 together are a keyed upsert (internal/storage/entry.go, internal/model/feed.go).
 */
module UpsertSpec {
  import opened RefreshSpec
  import opened EntryRows

  /** The entries of one feed of one user, after `RefreshFeed`. */
  ghost predicate OfFeed(vs: seq<EntryV>, user: Id, feed: Id) {
    forall i :: 0 <= i < |vs| ==> vs[i].userID == user && vs[i].feedID == feed
  }

  /** A feed belongs to one user, and so do its rows. */
  ghost predicate FeedOwned(rows: Rows, user: Id, feed: Id) {
    forall key :: key in rows && key.feed == feed ==> rows[key].userID == user
  }

  ghost predicate DistinctHashes(vs: seq<EntryV>) {
    forall i, j :: 0 <= i < j < |vs| ==> vs[i].hash != vs[j].hash
  }

  /** No other entry has the hash of the `i`-th. */
  ghost predicate Alone(vs: seq<EntryV>, i: nat)
    requires i < |vs|
  {
    forall j :: 0 <= j < |vs| && j != i ==> vs[j].hash != vs[i].hash
  }

  /** One refresh as it reaches the statements: the entries, the rows read, and the classification. */
  datatype Refresh = Refresh(user: Id, feed: Id, vs: seq<EntryV>, force: bool, answer: seq<Stored>)

  function Known(r: Refresh): map<Hash, Stored> { StoredBy(r.feed, r.answer) }

  function HashesOf(vs: seq<EntryV>): (hs: seq<Hash>)
    ensures |hs| == |vs| && forall i :: 0 <= i < |vs| ==> hs[i] == vs[i].hash
  {
    seq(|vs|, i requires 0 <= i < |vs| => vs[i].hash)
  }

  /** The refresh read the table it is about to change. */
  ghost predicate ReadFrom(r: Refresh, rows: Rows) {
    OfFeed(r.vs, r.user, r.feed) && FeedOwned(rows, r.user, r.feed)
      && IsPublished(rows, r.user, HashesOf(r.vs), r.answer)
  }

  function AppendedAll(r: Refresh): (ws: seq<EntryV>)
    ensures |ws| == |r.vs| && forall i :: 0 <= i < |ws| ==> ws[i] == Appended(Known(r), r.vs[i], r.force)
  {
    seq(|r.vs|, i requires 0 <= i < |r.vs| => Appended(Known(r), r.vs[i], r.force))
  }

  /** Values of the entries in a result list after `Append`. */
  function Listed(t: Target, r: Refresh): seq<EntryV> {
    Chosen(t, AppendedAll(r), r.vs, Known(r), r.force, |r.vs|)
  }

  // ---- positions of the chosen entries ----

  lemma {:induction false} ChosenAt<T>(t: Target, items: seq<T>, vs: seq<EntryV>, known: map<Hash, Stored>, force: bool,
      k: nat, j: nat) returns (i: nat)
    requires k <= |items| == |vs| && j < |Chosen(t, items, vs, known, force, k)|
    ensures i < k && Chosen(t, items, vs, known, force, k)[j] == items[i] && Goes(t, ClassOf(known, vs[i], force))
    ensures |Chosen(t, items, vs, known, force, i)| == j
  {
    if j < |Chosen(t, items, vs, known, force, k - 1)| {
      i := ChosenAt(t, items, vs, known, force, k - 1, j);
    } else {
      i := k - 1;
    }
  }

  lemma {:induction false} ChosenHas<T>(t: Target, items: seq<T>, vs: seq<EntryV>, known: map<Hash, Stored>,
      force: bool, k: nat, i: nat)
    requires i < k <= |items| == |vs| && Goes(t, ClassOf(known, vs[i], force))
    ensures var c, n := Chosen(t, items, vs, known, force, k), |Chosen(t, items, vs, known, force, i)|;
      n < |c| && c[n] == items[i]
  {
    if i < k - 1 { ChosenHas(t, items, vs, known, force, k - 1, i); }
  }

  lemma {:induction false} ChosenGrows<T>(t: Target, items: seq<T>, vs: seq<EntryV>, known: map<Hash, Stored>,
      force: bool, i: nat, k: nat)
    requires i <= k <= |items| == |vs|
    ensures |Chosen(t, items, vs, known, force, i)| <= |Chosen(t, items, vs, known, force, k)|
  {
    if i < k { ChosenGrows(t, items, vs, known, force, i, k - 1); }
  }

  // ---- classification against the table ----

  /** The feed's own row decides; without one the entry is created. */
  lemma ClassOfRow(r: Refresh, rows: Rows, i: nat)
    requires ReadFrom(r, rows) && i < |r.vs|
    ensures var v, c := r.vs[i], ClassOf(Known(r), r.vs[i], r.force);
      && (KeyOf(v) !in rows <==> Creates(c))
      && (KeyOf(v) in rows ==> Hits(rows, v))
      && (KeyOf(v) in rows ==> (c.Update? <==> r.force || v.date > rows[KeyOf(v)].date))
      && (KeyOf(v) in rows && !c.Update? ==> c == Keep(rows[KeyOf(v)].status))
  {
    var v := r.vs[i];
    var known := Known(r);
    StoredByMeaning(r.feed, r.answer, v.hash);
    assert v.hash in HashesOf(r.vs) by { assert HashesOf(r.vs)[i] == v.hash; }
    if KeyOf(v) in rows {
      assert Published(rows, r.user, HashesOf(r.vs), KeyOf(v));
      var own := StoredOf(KeyOf(v), rows[KeyOf(v)]);
      var n :| 0 <= n < |r.answer| && r.answer[n] == own;
    }
    if v.hash in known {
      var m :| 0 <= m < |r.answer| && r.answer[m] == known[v.hash];
      assert Published(rows, r.user, HashesOf(r.vs), Key(known[v.hash].feedID, v.hash));
    }
  }

  /** Every listed entry comes from one entry of the feed, its status aside. */
  lemma ListedAt(t: Target, r: Refresh, j: nat) returns (i: nat)
    requires OfFeed(r.vs, r.user, r.feed) && j < |Listed(t, r)|
    ensures i < |r.vs| && Goes(t, ClassOf(Known(r), r.vs[i], r.force))
    ensures Listed(t, r)[j] == Appended(Known(r), r.vs[i], r.force)
    ensures KeyOf(Listed(t, r)[j]) == KeyOf(r.vs[i])
    ensures |Chosen(t, AppendedAll(r), r.vs, Known(r), r.force, i)| == j
  {
    i := ChosenAt(t, AppendedAll(r), r.vs, Known(r), r.force, |r.vs|, j);
  }

  /** Created keys are absent from the table. */
  lemma CreatedAreAbsent(r: Refresh, rows: Rows, j: nat)
    requires ReadFrom(r, rows) && j < |Listed(Created, r)|
    ensures KeyOf(Listed(Created, r)[j]) !in rows
  {
    var i := ListedAt(Created, r, j);
    ClassOfRow(r, rows, i);
  }

  /** Updated keys are present, so no UPDATE of a refresh comes back empty. */
  lemma UpdatedArePresent(r: Refresh, rows: Rows)
    requires ReadFrom(r, rows)
    ensures AllHit(rows, Listed(Updated, r))
  {
    forall j | 0 <= j < |Listed(Updated, r)| ensures Hits(rows, Listed(Updated, r)[j]) {
      var i := ListedAt(Updated, r, j);
      ClassOfRow(r, rows, i);
    }
  }

  // ---- when the transaction commits ----

  /** `es` are the created entries as they are inserted: the filter may have changed their status. */
  ghost predicate SameButStatus(es: seq<EntryV>, cs: seq<EntryV>) {
    |es| == |cs| && forall j :: 0 <= j < |es| ==> es[j] == cs[j].(status := es[j].status)
  }

  function AfterUpdates(r: Refresh, rows: Rows, now: Time): Rows {
    var us := Listed(Updated, r);
    UpdateTo(rows, us, now, |us|)
  }

  function AfterRefresh(r: Refresh, rows: Rows, es: seq<EntryV>, next: Id, now: Time): Rows {
    InsertTo(AfterUpdates(r, rows, now), es, next, now, |es|)
  }

  /** No two entries of the feed bring the same hash the feed does not have yet. */
  ghost predicate NewHashesDistinct(r: Refresh, rows: Rows) {
    forall i, j :: 0 <= i < j < |r.vs| && KeyOf(r.vs[i]) !in rows ==> r.vs[i].hash != r.vs[j].hash
  }

  lemma NewKeysDiffer(r: Refresh, rows: Rows, es: seq<EntryV>, a: nat, b: nat)
    requires ReadFrom(r, rows) && SameButStatus(es, Listed(Created, r)) && NewHashesDistinct(r, rows) && a < b < |es|
    ensures KeyOf(es[a]) != KeyOf(es[b])
  {
    var i := ListedAt(Created, r, a);
    var j := ListedAt(Created, r, b);
    CreatedAreAbsent(r, rows, a);
    CreatedAreAbsent(r, rows, b);
    assert i != j;
  }

  /** Two entries with one new hash give two created entries of one key. */
  lemma NewKeyTwice(r: Refresh, rows: Rows, i: nat, j: nat) returns (a: nat, b: nat)
    requires ReadFrom(r, rows) && i < j < |r.vs| && KeyOf(r.vs[i]) !in rows && r.vs[i].hash == r.vs[j].hash
    ensures a < b < |Listed(Created, r)| && KeyOf(Listed(Created, r)[a]) == KeyOf(Listed(Created, r)[b])
  {
    var ws, known := AppendedAll(r), Known(r);
    ClassOfRow(r, rows, i);
    ClassOfRow(r, rows, j);
    ChosenHas(Created, ws, r.vs, known, r.force, |r.vs|, i);
    ChosenHas(Created, ws, r.vs, known, r.force, |r.vs|, j);
    ChosenHas(Created, ws, r.vs, known, r.force, j, i);
    a, b := |Chosen(Created, ws, r.vs, known, r.force, i)|, |Chosen(Created, ws, r.vs, known, r.force, j)|;
  }

  /** The unique index lets a refresh commit if and only if its new hashes are distinct. */
  lemma CommitsIff(r: Refresh, rows: Rows, es: seq<EntryV>, now: Time)
    requires ReadFrom(r, rows) && SameButStatus(es, Listed(Created, r))
    ensures CanInsert(AfterUpdates(r, rows, now), es, |es|) <==> NewHashesDistinct(r, rows)
  {
    forall j | 0 <= j < |es| ensures KeyOf(es[j]) !in rows { CreatedAreAbsent(r, rows, j); }
    if NewHashesDistinct(r, rows) {
      forall a, b | 0 <= a < b < |es| ensures KeyOf(es[a]) != KeyOf(es[b]) { NewKeysDiffer(r, rows, es, a, b); }
    } else {
      var i, j :| 0 <= i < j < |r.vs| && KeyOf(r.vs[i]) !in rows && r.vs[i].hash == r.vs[j].hash;
      var a, b := NewKeyTwice(r, rows, i, j);
      assert KeyOf(es[a]) == KeyOf(es[b]);
    }
  }

  // ---- the refresh as a keyed upsert ----

  /** A stored copy of another feed that is at least as new, as `Append` looks it up. */
  predicate Outdated(r: Refresh, v: EntryV) { ClassOf(Known(r), v, r.force).CreateRead? }

  /** The status a new row gets: Read when another feed's stored or recorded copy wins, else the entry's own. */
  function NewStatus(r: Refresh, seen: Seen, filter: bool, v: EntryV): Status {
    if !v.imported && (Outdated(r, v) || (filter && IsDuplicate(seen, v))) then Read else v.status
  }

  /** How many entries before the `i`-th are created. */
  function CreatedBefore(r: Refresh, i: nat): nat
    requires i <= |r.vs|
  {
    |Chosen(Created, AppendedAll(r), r.vs, Known(r), r.force, i)|
  }

  /** The reference: what an upsert of the `i`-th entry does to its own row. */
  ghost predicate Upserted(r: Refresh, seen: Seen, filter: bool, rows: Rows, rows': Rows, next: Id, now: Time, i: nat)
    requires i < |r.vs|
  {
    var v := r.vs[i];
    var key := KeyOf(v);
    key in rows' &&
    if key !in rows then
      rows'[key] == NewRow(v.(status := NewStatus(r, seen, filter, v)), next + CreatedBefore(r, i), now)
    else if r.force || v.date > rows[key].date then rows'[key] == UpdatedRow(rows[key], v, now)
    else rows'[key] == rows[key]
  }

  lemma UpdatesOnlyListed(r: Refresh, rows: Rows, now: Time, key: Key)
    requires ReadFrom(r, rows) && key in rows
    requires forall i :: 0 <= i < |r.vs| && KeyOf(r.vs[i]) == key ==> !ClassOf(Known(r), r.vs[i], r.force).Update?
    ensures AfterUpdates(r, rows, now)[key] == rows[key]
  {
    var us := Listed(Updated, r);
    forall j | 0 <= j < |us| ensures KeyOf(us[j]) != key {
      var i := ListedAt(Updated, r, j);
    }
    UpdateOthers(rows, us, now, |us|, key);
  }

  lemma UpdateReaches(r: Refresh, rows: Rows, now: Time, i: nat)
    requires ReadFrom(r, rows) && i < |r.vs| && Alone(r.vs, i)
    requires KeyOf(r.vs[i]) in rows && ClassOf(Known(r), r.vs[i], r.force).Update?
    ensures AfterUpdates(r, rows, now)[KeyOf(r.vs[i])] == UpdatedRow(rows[KeyOf(r.vs[i])], r.vs[i], now)
  {
    var us, ws, known := Listed(Updated, r), AppendedAll(r), Known(r);
    ChosenHas(Updated, ws, r.vs, known, r.force, |r.vs|, i);
    var n := |Chosen(Updated, ws, r.vs, known, r.force, i)|;
    forall j | 0 <= j < |us| && j != n ensures KeyOf(us[j]) != KeyOf(us[n]) {
      var m := ListedAt(Updated, r, j);
      assert m != i;
    }
    UpdateOnce(rows, us, now, |us|, n);
  }

  /** Rows of keys the refresh did not bring stay as they are; no other key appears. */
  lemma OtherRowsUntouched(r: Refresh, rows: Rows, es: seq<EntryV>, next: Id, now: Time, key: Key)
    requires ReadFrom(r, rows) && SameButStatus(es, Listed(Created, r)) && NewHashesDistinct(r, rows)
    requires forall i :: 0 <= i < |r.vs| ==> KeyOf(r.vs[i]) != key
    ensures var rows' := AfterRefresh(r, rows, es, next, now);
      (key in rows' <==> key in rows) && (key in rows ==> rows'[key] == rows[key])
  {
    CommitsIff(r, rows, es, now);
    InsertMeaning(AfterUpdates(r, rows, now), es, next, now, |es|);
    if key in rows { UpdatesOnlyListed(r, rows, now, key); }
    forall j | 0 <= j < |es| ensures KeyOf(es[j]) != key {
      var i := ListedAt(Created, r, j);
      assert KeyOf(es[j]) == KeyOf(r.vs[i]);
    }
  }

  /** The filter changes statuses only. */
  lemma {:induction false} FilterStatusOnly(seen: Seen, cs: seq<EntryV>, k: nat)
    requires k <= |cs|
    ensures var es := FilterTo(seen, cs, k).entries;
      forall j :: 0 <= j < k ==> es[j] == cs[j].(status := es[j].status)
  {
    if k > 0 { FilterStatusOnly(seen, cs, k - 1); }
  }

  lemma FilteredIsSame(seen: Seen, filter: bool, cs: seq<EntryV>)
    ensures SameButStatus(FilteredBy(seen, filter, cs), cs)
  {
    FilterStatusOnly(seen, cs, |cs|);
  }

  /** The created entry of the `i`-th, as the filter leaves it. */
  lemma CreatedAs(r: Refresh, seen: Seen, filter: bool, i: nat)
    requires OfFeed(r.vs, r.user, r.feed) && i < |r.vs| && Alone(r.vs, i)
    requires Creates(ClassOf(Known(r), r.vs[i], r.force))
    ensures var es := FilteredBy(seen, filter, Listed(Created, r)); var n := CreatedBefore(r, i);
      n < |es| && es[n] == r.vs[i].(status := NewStatus(r, seen, filter, r.vs[i]))
  {
    var cs, n := Listed(Created, r), CreatedBefore(r, i);
    ChosenHas(Created, AppendedAll(r), r.vs, Known(r), r.force, |r.vs|, i);
    forall j | 0 <= j < n ensures cs[j].hash != cs[n].hash {
      var m := ListedAt(Created, r, j);
      assert m != i;
    }
    FilterEach(seen, cs, |cs|, n);
  }

  /** A committed refresh upserts every entry whose hash the feed does not repeat. */
  lemma RefreshUpserts(r: Refresh, seen: Seen, filter: bool, rows: Rows, next: Id, now: Time, i: nat)
    requires ReadFrom(r, rows) && NewHashesDistinct(r, rows) && i < |r.vs| && Alone(r.vs, i)
    ensures var es := FilteredBy(seen, filter, Listed(Created, r));
      && CanInsert(AfterUpdates(r, rows, now), es, |es|)
      && Upserted(r, seen, filter, rows, AfterRefresh(r, rows, es, next, now), next, now, i)
  {
    var v := r.vs[i];
    var mid := AfterUpdates(r, rows, now);
    var es := FilteredBy(seen, filter, Listed(Created, r));
    FilteredIsSame(seen, filter, Listed(Created, r));
    CommitsIff(r, rows, es, now);
    InsertMeaning(mid, es, next, now, |es|);
    ClassOfRow(r, rows, i);
    if KeyOf(v) !in rows {
      CreatedAs(r, seen, filter, i);
    } else if r.force || v.date > rows[KeyOf(v)].date {
      UpdateReaches(r, rows, now, i);
    } else {
      UpdatesOnlyListed(r, rows, now, KeyOf(v));
    }
  }

  /** Unforced, `published_at` of a stored row never goes back, even when a feed repeats hashes. */
  lemma DatesNeverGoBack(r: Refresh, rows: Rows, es: seq<EntryV>, next: Id, now: Time, key: Key)
    requires ReadFrom(r, rows) && SameButStatus(es, Listed(Created, r)) && NewHashesDistinct(r, rows) && !r.force
      && key in rows
    ensures var rows' := AfterRefresh(r, rows, es, next, now); key in rows' && rows'[key].date >= rows[key].date
  {
    var us := Listed(Updated, r);
    CommitsIff(r, rows, es, now);
    InsertMeaning(AfterUpdates(r, rows, now), es, next, now, |es|);
    forall j | 0 <= j < |us| ensures KeyOf(us[j]) in rows && us[j].date > rows[KeyOf(us[j])].date {
      var i := ListedAt(Updated, r, j);
      ClassOfRow(r, rows, i);
    }
    UpdateDates(rows, us, now, |us|, key);
  }

  lemma {:induction false} UpdateDates(rows: Rows, us: seq<EntryV>, now: Time, k: nat, key: Key)
    requires k <= |us| && key in rows
    requires forall j :: 0 <= j < k ==> KeyOf(us[j]) in rows && us[j].date > rows[KeyOf(us[j])].date
    ensures UpdateTo(rows, us, now, k)[key].date >= rows[key].date
  {
    if k > 0 { UpdateDates(rows, us, now, k - 1, key); }
  }

  // ---- repeating a refresh ----

  /** The refresh writes the `i`-th entry over its stored row. */
  predicate Writes(r: Refresh, rows: Rows, i: nat)
    requires i < |r.vs|
  {
    KeyOf(r.vs[i]) in rows && (r.force || r.vs[i].date > rows[KeyOf(r.vs[i])].date)
  }

  /** The `i`-th entry is the last one written over its row. */
  ghost predicate WritesLast(r: Refresh, rows: Rows, i: nat)
    requires i < |r.vs|
  {
    Writes(r, rows, i) && forall j :: i < j < |r.vs| && r.vs[j].hash == r.vs[i].hash ==> !Writes(r, rows, j)
  }

  /** For every stored hash the last entry written carries the greatest date the feed has for it. */
  ghost predicate LastIsNewest(r: Refresh, rows: Rows) {
    forall i, j :: 0 <= i < |r.vs| && 0 <= j < |r.vs| && WritesLast(r, rows, i) && r.vs[j].hash == r.vs[i].hash ==>
      r.vs[j].date <= r.vs[i].date
  }

  lemma {:induction false} LastWrite(r: Refresh, rows: Rows, i: nat) returns (m: nat)
    requires i < |r.vs| && Writes(r, rows, i)
    ensures m < |r.vs| && WritesLast(r, rows, m) && r.vs[m].hash == r.vs[i].hash
    decreases |r.vs| - i
  {
    if j :| i < j < |r.vs| && r.vs[j].hash == r.vs[i].hash && Writes(r, rows, j) {
      m := LastWrite(r, rows, j);
    } else {
      m := i;
    }
  }

  /** The row of the last entry written has its date. */
  lemma LastWriteDecides(r: Refresh, rows: Rows, now: Time, m: nat)
    requires ReadFrom(r, rows) && m < |r.vs| && WritesLast(r, rows, m)
    ensures AfterUpdates(r, rows, now)[KeyOf(r.vs[m])].date == r.vs[m].date
  {
    var us, ws, known := Listed(Updated, r), AppendedAll(r), Known(r);
    ClassOfRow(r, rows, m);
    ChosenHas(Updated, ws, r.vs, known, r.force, |r.vs|, m);
    var n := |Chosen(Updated, ws, r.vs, known, r.force, m)|;
    forall j | n < j < |us| ensures KeyOf(us[j]) != KeyOf(us[n]) {
      var i := ListedAt(Updated, r, j);
      ClassOfRow(r, rows, i);
      if i <= m { ChosenGrows(Updated, ws, r.vs, known, r.force, i, m); }
      assert i > m;
    }
    UpdateLast(rows, us, now, |us|, n);
  }

  /** The date a key of the feed has after a committed refresh. */
  lemma DateAfter(r: Refresh, rows: Rows, es: seq<EntryV>, next: Id, now: Time, i: nat)
    requires ReadFrom(r, rows) && SameButStatus(es, Listed(Created, r)) && NewHashesDistinct(r, rows) && i < |r.vs|
    ensures var rows' := AfterRefresh(r, rows, es, next, now); var key := KeyOf(r.vs[i]);
      && key in rows'
      && (key !in rows ==> rows'[key].date == r.vs[i].date)
      && (WritesLast(r, rows, i) ==> rows'[key].date == r.vs[i].date)
      && (key in rows && (forall j :: 0 <= j < |r.vs| && r.vs[j].hash == r.vs[i].hash ==> !Writes(r, rows, j)) ==>
            rows'[key].date == rows[key].date)
  {
    var key, mid := KeyOf(r.vs[i]), AfterUpdates(r, rows, now);
    CommitsIff(r, rows, es, now);
    InsertMeaning(mid, es, next, now, |es|);
    ClassOfRow(r, rows, i);
    if key !in rows {
      ChosenHas(Created, AppendedAll(r), r.vs, Known(r), r.force, |r.vs|, i);
      var n := CreatedBefore(r, i);
      assert KeyOf(es[n]) == key && es[n].date == r.vs[i].date;
    } else if WritesLast(r, rows, i) {
      LastWriteDecides(r, rows, now, i);
    } else if forall j :: 0 <= j < |r.vs| && r.vs[j].hash == r.vs[i].hash ==> !Writes(r, rows, j) {
      forall j | 0 <= j < |r.vs| && KeyOf(r.vs[j]) == key ensures !ClassOf(Known(r), r.vs[j], r.force).Update? {
        ClassOfRow(r, rows, j);
      }
      UpdatesOnlyListed(r, rows, now, key);
    }
  }

  /** What a repetition would do with the `i`-th entry. */
  lemma RepeatOfEntry(r: Refresh, rows: Rows, es: seq<EntryV>, next: Id, now: Time, answer: seq<Stored>, i: nat)
    requires ReadFrom(r, rows) && SameButStatus(es, Listed(Created, r)) && NewHashesDistinct(r, rows) && i < |r.vs|
    requires ReadFrom(r.(force := false, answer := answer), AfterRefresh(r, rows, es, next, now))
    ensures var again := r.(force := false, answer := answer);
      var c := ClassOf(Known(again), r.vs[i], false);
      && !Creates(c)
      && (c.Update? <==> exists m :: 0 <= m < |r.vs| && WritesLast(r, rows, m) && Outdates(r, m, i))
  {
    var again, rows' := r.(force := false, answer := answer), AfterRefresh(r, rows, es, next, now);
    DateAfter(r, rows, es, next, now, i);
    ClassOfRow(again, rows', i);
    if m :| 0 <= m < |r.vs| && WritesLast(r, rows, m) && r.vs[m].hash == r.vs[i].hash {
      DateAfter(r, rows, es, next, now, m);
      assert forall k :: 0 <= k < |r.vs| && WritesLast(r, rows, k) && Outdates(r, k, i) ==>
        r.vs[k].date == r.vs[m].date by {
        forall k | 0 <= k < |r.vs| && WritesLast(r, rows, k) && Outdates(r, k, i) ensures r.vs[k].date == r.vs[m].date {
          DateAfter(r, rows, es, next, now, k);
        }
      }
      assert Outdates(r, m, i) <==> r.vs[i].date > r.vs[m].date;
    } else {
      forall j | 0 <= j < |r.vs| && r.vs[j].hash == r.vs[i].hash ensures !Writes(r, rows, j) {
        if Writes(r, rows, j) { var m := LastWrite(r, rows, j); }
      }
    }
  }

  /** Entry `i` has the hash of entry `m` and is newer. */
  predicate Outdates(r: Refresh, m: nat, i: nat)
    requires m < |r.vs| && i < |r.vs|
  {
    r.vs[m].hash == r.vs[i].hash && r.vs[i].date > r.vs[m].date
  }

  /**
   Repeating a committed refresh, unforced, never creates; and it updates nothing if and only if
   the last entry written over each stored row was the newest the feed has for it.
   */
  lemma RepeatIsNoOpIff(r: Refresh, rows: Rows, es: seq<EntryV>, next: Id, now: Time, answer: seq<Stored>)
    requires ReadFrom(r, rows) && SameButStatus(es, Listed(Created, r)) && NewHashesDistinct(r, rows)
    requires ReadFrom(r.(force := false, answer := answer), AfterRefresh(r, rows, es, next, now))
    ensures var again := r.(force := false, answer := answer);
      Listed(Created, again) == [] && (Listed(Updated, again) == [] <==> LastIsNewest(r, rows))
  {
    var again := r.(force := false, answer := answer);
    if Listed(Created, again) != [] {
      var i := ListedAt(Created, again, 0);
      RepeatOfEntry(r, rows, es, next, now, answer, i);
      assert false;
    }
    if Listed(Updated, again) != [] {
      var i := ListedAt(Updated, again, 0);
      RepeatOfEntry(r, rows, es, next, now, answer, i);
      var m :| 0 <= m < |r.vs| && WritesLast(r, rows, m) && Outdates(r, m, i);
    }
    if !LastIsNewest(r, rows) { NewerUpdates(r, rows, es, next, now, answer); }
  }

  /** An entry newer than the one written last is updated by the repetition. */
  lemma NewerUpdates(r: Refresh, rows: Rows, es: seq<EntryV>, next: Id, now: Time, answer: seq<Stored>)
    requires ReadFrom(r, rows) && SameButStatus(es, Listed(Created, r)) && NewHashesDistinct(r, rows)
      && !LastIsNewest(r, rows)
    requires ReadFrom(r.(force := false, answer := answer), AfterRefresh(r, rows, es, next, now))
    ensures Listed(Updated, r.(force := false, answer := answer)) != []
  {
    var again := r.(force := false, answer := answer);
    var m, i :| 0 <= m < |r.vs| && 0 <= i < |r.vs| && WritesLast(r, rows, m) && r.vs[i].hash == r.vs[m].hash
      && r.vs[i].date > r.vs[m].date;
    assert Outdates(r, m, i);
    RepeatOfEntry(r, rows, es, next, now, answer, i);
    ChosenHas(Updated, AppendedAll(again), r.vs, Known(again), false, |r.vs|, i);
  }

  /** Distinct hashes meet the condition. */
  lemma RepeatIsNoOp(r: Refresh, rows: Rows, es: seq<EntryV>, next: Id, now: Time, answer: seq<Stored>)
    requires ReadFrom(r, rows) && SameButStatus(es, Listed(Created, r)) && DistinctHashes(r.vs)
    requires ReadFrom(r.(force := false, answer := answer), AfterRefresh(r, rows, es, next, now))
    ensures var again := r.(force := false, answer := answer);
      Listed(Created, again) == [] && Listed(Updated, again) == []
  {
    DistinctAreNewest(r, rows);
    RepeatIsNoOpIff(r, rows, es, next, now, answer);
  }

  lemma DistinctAreNewest(r: Refresh, rows: Rows)
    requires DistinctHashes(r.vs)
    ensures NewHashesDistinct(r, rows) && LastIsNewest(r, rows)
  {
    forall i, j | 0 <= i < |r.vs| && 0 <= j < |r.vs| && r.vs[j].hash == r.vs[i].hash ensures i == j {}
  }

  /** With a repeated hash that is stored already, repeating the refresh can update again. */
  lemma RepeatedHashUpdatesAgain() returns (r: Refresh, rows: Rows, answer: seq<Stored>)
    ensures ReadFrom(r, rows) && !r.force && Listed(Created, r) == [] && NewHashesDistinct(r, rows)
    ensures ReadFrom(r.(answer := answer), AfterRefresh(r, rows, [], 2, 9))
    ensures Listed(Updated, r.(answer := answer)) != []
  {
    var x := EntryV(1, 1, Unread, 5, 20, false, 0, false);
    var y := x.(date := 10);
    rows := map[Key(1, 5) := Row(1, 1, Read, 0, 0, false, 0)];
    r := Refresh(1, 1, [x, y], false, [Stored(1, Read, 5, 0)]);
    answer := [Stored(1, Unread, 5, 10)];
    assert HashesOf(r.vs)[0] == 5;
    forall t: Target ensures Listed(t, r) == if t.Updated? then [x, y] else [] { TwoListed(t, r); }
    var again := r.(answer := answer);
    TwoListed(Updated, again);
    assert UpdateTo(rows, [x, y], 9, 1) == map[Key(1, 5) := UpdatedRow(rows[Key(1, 5)], x, 9)];
    assert UpdateTo(rows, [x, y], 9, 2) == map[Key(1, 5) := Row(1, 1, Unread, 10, 0, false, 9)];
  }

  lemma TwoListed(t: Target, r: Refresh)
    requires |r.vs| == 2 && |r.answer| == 1
    ensures Listed(t, r) == (if Goes(t, ClassOf(Known(r), r.vs[0], r.force)) then [AppendedAll(r)[0]] else [])
                          + (if Goes(t, ClassOf(Known(r), r.vs[1], r.force)) then [AppendedAll(r)[1]] else [])
    ensures Known(r) == map[r.answer[0].hash := r.answer[0]]
  {
    assert StoredBy(r.feed, r.answer[..0]) == map[];
    var ws, known := AppendedAll(r), Known(r);
    assert Chosen(t, ws, r.vs, known, r.force, 0) == [];
    assert Chosen(t, ws, r.vs, known, r.force, 1) == if Goes(t, ClassOf(known, r.vs[0], r.force)) then [ws[0]] else [];
    assert Listed(t, r) == Chosen(t, ws, r.vs, known, r.force, 2);
  }
}
