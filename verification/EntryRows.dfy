/**
 The `entries` table as a map from its unique key (feed_id, hash) to rows, and the statements
 of a refresh as functions on it (internal/storage/entry.go, internal/storage/schema.sql).
 */
module EntryRows {
  import opened RefreshSpec

  datatype Key = Key(feed: Id, hash: Hash)

  datatype Row = Row(id: Id, userID: Id, status: Status, date: Time, content: int, starred: bool, changedAt: Time)

  type Rows = map<Key, Row>

  function KeyOf(e: EntryV): Key { Key(e.feedID, e.hash) }

  function NewRow(e: EntryV, id: Id, now: Time): Row {
    Row(id, e.userID, e.status, e.date, e.content, e.starred, now)
  }

  /** The UPDATE of `queueUpdateEntry`: starred is written for imported entries only. */
  function UpdatedRow(r: Row, e: EntryV, now: Time): Row {
    r.(status := e.status, date := e.date, content := e.content, changedAt := now,
       starred := if e.imported then e.starred else r.starred)
  }

  /** The WHERE of the UPDATE finds a row. */
  predicate Hits(rows: Rows, e: EntryV) { KeyOf(e) in rows && rows[KeyOf(e)].userID == e.userID }

  predicate AllHit(rows: Rows, es: seq<EntryV>) { forall i :: 0 <= i < |es| ==> Hits(rows, es[i]) }

  function UpdateTo(rows: Rows, es: seq<EntryV>, now: Time, k: nat): (r: Rows)
    requires k <= |es|
    ensures r.Keys == rows.Keys
  {
    if k == 0 then rows else
    var before := UpdateTo(rows, es, now, k - 1);
    var e := es[k - 1];
    if KeyOf(e) in before then before[KeyOf(e) := UpdatedRow(before[KeyOf(e)], e, now)] else before
  }

  /** No unique violation: the keys are new, and different from each other. */
  ghost predicate CanInsert(rows: Rows, es: seq<EntryV>, k: nat)
    requires k <= |es|
  {
    && (forall i :: 0 <= i < k ==> KeyOf(es[i]) !in rows)
    && (forall i, j :: 0 <= i < j < k ==> KeyOf(es[i]) != KeyOf(es[j]))
  }

  function InsertTo(rows: Rows, es: seq<EntryV>, next: Id, now: Time, k: nat): Rows
    requires k <= |es|
  {
    if k == 0 then rows else
    InsertTo(rows, es, next, now, k - 1)[KeyOf(es[k - 1]) := NewRow(es[k - 1], next + k - 1, now)]
  }

  lemma {:induction false} InsertMeaning(rows: Rows, es: seq<EntryV>, next: Id, now: Time, k: nat)
    requires k <= |es| && CanInsert(rows, es, k)
    ensures var r := InsertTo(rows, es, next, now, k);
      && (forall i :: 0 <= i < k ==> KeyOf(es[i]) in r && r[KeyOf(es[i])] == NewRow(es[i], next + i, now))
      && (forall key :: key in r ==> key in rows || exists i :: 0 <= i < k && KeyOf(es[i]) == key)
      && (forall key :: key in rows ==> key in r && r[key] == rows[key])
  {
    if k > 0 { InsertMeaning(rows, es, next, now, k - 1); }
  }

  lemma {:induction false} InsertKeys(rows: Rows, es: seq<EntryV>, next: Id, now: Time, k: nat, key: Key)
    requires k <= |es|
    ensures key in InsertTo(rows, es, next, now, k) <==> key in rows || exists i :: 0 <= i < k && KeyOf(es[i]) == key
  {
    if k > 0 { InsertKeys(rows, es, next, now, k - 1, key); }
  }

  /** The unique index decides one INSERT at a time. */
  lemma InsertStep(rows: Rows, es: seq<EntryV>, next: Id, now: Time, k: nat)
    requires k < |es| && CanInsert(rows, es, k)
    ensures CanInsert(rows, es, k + 1) <==> KeyOf(es[k]) !in InsertTo(rows, es, next, now, k)
    ensures CanInsert(rows, es, |es|) ==> CanInsert(rows, es, k + 1)
  {
    InsertKeys(rows, es, next, now, k, KeyOf(es[k]));
  }

  lemma {:induction false} UpdateOthers(rows: Rows, es: seq<EntryV>, now: Time, k: nat, key: Key)
    requires k <= |es| && key in rows
    requires forall i :: 0 <= i < k ==> KeyOf(es[i]) != key
    ensures UpdateTo(rows, es, now, k)[key] == rows[key]
  {
    if k > 0 { UpdateOthers(rows, es, now, k - 1, key); }
  }

  /** Of several updates of a key the last one decides what they write. */
  lemma {:induction false} UpdateLast(rows: Rows, es: seq<EntryV>, now: Time, k: nat, i: nat)
    requires i < k <= |es| && KeyOf(es[i]) in rows
    requires forall j :: i < j < k ==> KeyOf(es[j]) != KeyOf(es[i])
    ensures UpdateTo(rows, es, now, k)[KeyOf(es[i])] == UpdatedRow(UpdateTo(rows, es, now, i)[KeyOf(es[i])], es[i], now)
  {
    if i < k - 1 { UpdateLast(rows, es, now, k - 1, i); }
  }

  lemma UpdateOnce(rows: Rows, es: seq<EntryV>, now: Time, k: nat, i: nat)
    requires i < k <= |es| && KeyOf(es[i]) in rows
    requires forall j :: 0 <= j < k && j != i ==> KeyOf(es[j]) != KeyOf(es[i])
    ensures UpdateTo(rows, es, now, k)[KeyOf(es[i])] == UpdatedRow(rows[KeyOf(es[i])], es[i], now)
  {
    UpdateLast(rows, es, now, k, i);
    UpdateOthers(rows, es, now, i, KeyOf(es[i]));
  }

  // ---- publishedEntries ----

  function StoredOf(key: Key, row: Row): Stored { Stored(key.feed, row.status, key.hash, row.date) }

  predicate Published(rows: Rows, user: Id, hashes: seq<Hash>, key: Key) {
    key in rows && rows[key].userID == user && key.hash in hashes
  }

  ghost predicate OnceEach(answer: seq<Stored>) {
    forall i, j :: 0 <= i < j < |answer| ==>
      Key(answer[i].feedID, answer[i].hash) != Key(answer[j].feedID, answer[j].hash)
  }

  /** A possible answer of the SELECT: each row once, in any order. */
  ghost predicate IsPublished(rows: Rows, user: Id, hashes: seq<Hash>, answer: seq<Stored>) {
    && (forall i :: 0 <= i < |answer| ==>
          var key := Key(answer[i].feedID, answer[i].hash);
          Published(rows, user, hashes, key) && answer[i] == StoredOf(key, rows[key]))
    && (forall key :: Published(rows, user, hashes, key) ==> StoredOf(key, rows[key]) in answer)
    && OnceEach(answer)
  }
}
