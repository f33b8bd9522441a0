/**
 Which totals of a batch do not depend on the schedule (internal/storage/entry.go,
 internal/storage/dedup.go, internal/model/feed.go). For a batch of different feeds the table is
 known at every moment from which refreshes have committed, and so is, for each user and hash,
 whether some copy must or can never be shown as new.
 */
module BatchTotals {
  import opened BatchDedup
  import opened EntryRows
  import opened RefreshSpec
  import C = BatchCounts
  import DedupOrder
  import BatchRows
  import U = UpsertSpec

  type Pair = DedupOrder.Pair

  // ---- the batch and its pairs ----

  /** A clean batch of different feeds, unforced, about to start; a feed's rows belong to its user. */
  ghost predicate Ready(s: State) {
    && Initial(s) && C.CleanBatch(s.jobs) && BatchRows.FeedsDiffer(s.jobs)
    && forall j :: 0 <= j < |s.jobs| ==> !s.jobs[j].force && U.FeedOwned(s.rows, s.jobs[j].user, s.jobs[j].feed)
  }

  /** Entry `a` of job `j` is a copy of the pair. */
  ghost predicate Of(jobs: seq<Job>, j: nat, a: nat, p: Pair) {
    C.Entry(jobs, j, a) && jobs[j].user == p.0 && jobs[j].vs[a].hash == p.1
  }

  /** Its feed has no row of the pair. */
  ghost predicate New(s: State, j: nat, a: nat, p: Pair) { Of(s.jobs, j, a, p) && KeyOf(s.jobs[j].vs[a]) !in s.rows }

  /** A row of the pair. */
  predicate Old(rows: Rows, key: Key, p: Pair) { key in rows && rows[key].userID == p.0 && key.hash == p.1 }

  // ---- the table, from the commits ----

  /** The date a row has once the entry is stored. */
  function Due(rows: Rows, v: EntryV): Time {
    if KeyOf(v) in rows && rows[KeyOf(v)].date >= v.date then rows[KeyOf(v)].date else v.date
  }

  predicate SameRow(a: Rows, b: Rows, key: Key) {
    (key in a <==> key in b) && (key in a ==> a[key].userID == b[key].userID && a[key].date == b[key].date)
  }

  ghost predicate WroteAt(jobs: seq<Job>, key: Key, j: nat, a: nat) {
    C.Entry(jobs, j, a) && jobs[j].phase.Committed? && KeyOf(jobs[j].vs[a]) == key
  }

  predicate Holds(rows: Rows, key: Key, user: Id, date: Time) {
    key in rows && rows[key].userID == user && rows[key].date == date
  }

  /** The row of a key: stored by the job that committed it, or as at the start. */
  ghost predicate RowIs(rows0: Rows, s: State, key: Key) {
    && (forall j: nat, a: nat :: WroteAt(s.jobs, key, j, a) ==>
          Holds(s.rows, key, s.jobs[j].user, Due(rows0, s.jobs[j].vs[a])))
    && ((forall j: nat, a: nat :: !WroteAt(s.jobs, key, j, a)) ==> SameRow(rows0, s.rows, key))
  }

  ghost predicate TableIs(rows0: Rows, s: State) { forall key :: RowIs(rows0, s, key) }

  // ---- the jobs ----

  /** What the feed's own rows make of an entry. */
  ghost predicate RightClass(rows0: Rows, v: EntryV, c: Class) {
    && (KeyOf(v) !in rows0 <==> Creates(c))
    && (KeyOf(v) in rows0 ==> (c.Update? <==> v.date > rows0[KeyOf(v)].date))
  }

  predicate IsNewer(rows0: Rows, v: EntryV) { KeyOf(v) in rows0 && v.date > rows0[KeyOf(v)].date }

  ghost predicate FromNew(rows0: Rows, vs: seq<EntryV>, e: EntryV) {
    exists a :: 0 <= a < |vs| && e == vs[a].(status := e.status) && KeyOf(vs[a]) !in rows0
  }

  ghost predicate FromOld(rows0: Rows, vs: seq<EntryV>, e: EntryV) {
    exists a :: 0 <= a < |vs| && e == vs[a] && IsNewer(rows0, vs[a])
  }

  ghost predicate HasHash(es: seq<EntryV>, h: Hash) { exists i :: 0 <= i < |es| && es[i].hash == h }

  /** The lists hold the new and the newer entries, each once. */
  ghost predicate ListsAre(rows0: Rows, vs: seq<EntryV>, created: seq<EntryV>, updated: seq<EntryV>) {
    && U.DistinctHashes(created) && U.DistinctHashes(updated)
    && (forall i :: 0 <= i < |created| ==> FromNew(rows0, vs, created[i]))
    && (forall i :: 0 <= i < |updated| ==> FromOld(rows0, vs, updated[i]))
    && (forall a :: 0 <= a < |vs| && KeyOf(vs[a]) !in rows0 ==> HasHash(created, vs[a].hash))
    && (forall a :: 0 <= a < |vs| && IsNewer(rows0, vs[a]) ==> HasHash(updated, vs[a].hash))
  }

  /** Entries among the first `k` that the feed has no row of. */
  function NewCount(rows0: Rows, vs: seq<EntryV>, k: nat): nat
    requires k <= |vs|
  {
    if k == 0 then 0 else NewCount(rows0, vs, k - 1) + if KeyOf(vs[k - 1]) !in rows0 then 1 else 0
  }

  function ClassAt(j: Job, answer: seq<Stored>, a: nat): Class
    requires a < |j.vs|
  {
    ClassOf(U.Known(RefreshOf(j, answer)), j.vs[a], j.force)
  }

  ghost predicate JobIs(rows0: Rows, j: Job) {
    match j.phase
    case Idle => j.dedups == 0
    case Read(answer) => j.dedups == 0 && forall a :: 0 <= a < |j.vs| ==>
      RightClass(rows0, j.vs[a], ClassAt(j, answer, a))
    case Sorted(created, updated) =>
      && ListsAre(rows0, j.vs, created, updated)
      && DedupOrder.StillUnread(created, |created|) + j.dedups == NewCount(rows0, j.vs, |j.vs|)
    case Screened(created, updated) => ListsAre(rows0, j.vs, created, updated)
    case _ => true
  }

  ghost predicate JobsAre(rows0: Rows, s: State) { forall j :: 0 <= j < |s.jobs| ==> JobIs(rows0, s.jobs[j]) }

  /** A filter that has run recorded this feed. */
  ghost predicate RecordedBy(jobs: seq<Job>, feed: Id) {
    exists j :: 0 <= j < |jobs| && PastFilter(jobs[j].phase) && jobs[j].feed == feed
  }

  ghost predicate SeenFrom(s: State) {
    forall user, h :: h in DedupOrder.SeenBy(s.seen, user) ==> RecordedBy(s.jobs, DedupOrder.SeenBy(s.seen, user)[h])
  }

  /** New entries of the filtered jobs that were not deduplicated. */
  function Gained(rows0: Rows, jobs: seq<Job>): int {
    if jobs == [] then 0 else Gained(rows0, jobs[..|jobs| - 1]) + Gain(rows0, jobs[|jobs| - 1])
  }

  function Gain(rows0: Rows, j: Job): int {
    if PastFilter(j.phase) then NewCount(rows0, j.vs, |j.vs|) - j.dedups else 0
  }

  ghost predicate Inv(s0: State, s: State) {
    && C.SameWork(s0.jobs, s.jobs) && TableIs(s0.rows, s) && JobsAre(s0.rows, s) && SeenFrom(s)
    && s.created == Gained(s0.rows, s.jobs)
  }

  // ---- what a started batch keeps ----

  /** The static part of the setting, for one job. */
  ghost predicate Fit(rows0: Rows, j: Job) {
    && U.OfFeed(j.vs, j.user, j.feed) && !j.force && U.DistinctHashes(j.vs) && U.FeedOwned(rows0, j.user, j.feed)
    && forall a :: 0 <= a < |j.vs| ==> ShownNew(j.vs[a])
  }

  lemma JobFits(s0: State, s: State, k: nat)
    requires Ready(s0) && C.SameWork(s0.jobs, s.jobs) && k < |s.jobs|
    ensures Fit(s0.rows, s.jobs[k])
  {
    assert StartsIdle(s0.jobs[k]);
    C.HashesDiffer(s0, k);
    assert forall a :: 0 <= a < |s0.jobs[k].vs| ==> C.Entry(s0.jobs, k, a);
  }

  /** The entries of a key are those of its feed's job. */
  lemma OnlyOwn(s0: State, s: State, key: Key, k: nat, j: nat, a: nat)
    requires Ready(s0) && C.SameWork(s0.jobs, s.jobs) && k < |s.jobs| && key.feed == s.jobs[k].feed
    requires C.Entry(s.jobs, j, a) && KeyOf(s.jobs[j].vs[a]) == key
    ensures j == k
  {
    JobFits(s0, s, j);
    assert s0.jobs[j].feed == s.jobs[j].feed && s0.jobs[k].feed == s.jobs[k].feed;
  }

  /** Before a job commits the rows of its feed are those of the start. */
  lemma OwnRows(s0: State, s: State, k: nat, key: Key)
    requires Ready(s0) && Inv(s0, s) && k < |s.jobs| && !s.jobs[k].phase.Committed? && key.feed == s.jobs[k].feed
    ensures SameRow(s0.rows, s.rows, key)
  {
    assert RowIs(s0.rows, s, key);
    forall j: nat, a: nat ensures !WroteAt(s.jobs, key, j, a) {
      if C.Entry(s.jobs, j, a) && KeyOf(s.jobs[j].vs[a]) == key { OnlyOwn(s0, s, key, k, j, a); }
    }
  }

  // ---- reading ----

  lemma ReadIs(s0: State, s: State, k: nat, answer: seq<Stored>)
    requires Ready(s0) && Inv(s0, s) && Enabled(s, ReadRows(k, answer))
    ensures JobIs(s0.rows, s.jobs[k].(phase := Phase.Read(answer)))
  {
    var j := s.jobs[k];
    var r := RefreshOf(j, answer);
    JobFits(s0, s, k);
    assert JobIs(s0.rows, j);
    forall key | key in s.rows && key.feed == j.feed ensures s.rows[key].userID == j.user { OwnRows(s0, s, k, key); }
    forall a | 0 <= a < |j.vs| ensures RightClass(s0.rows, j.vs[a], ClassAt(j, answer, a)) {
      U.ClassOfRow(r, s.rows, a);
      OwnRows(s0, s, k, KeyOf(j.vs[a]));
    }
  }

  // ---- sorting ----

  lemma ListedFrom(rows0: Rows, j: Job, answer: seq<Stored>, t: Target, i: nat) returns (a: nat)
    requires Fit(rows0, j) && JobIs(rows0, j.(phase := Phase.Read(answer), dedups := 0))
    requires i < |U.Listed(t, RefreshOf(j, answer))|
    ensures a < |j.vs| && Goes(t, ClassAt(j, answer, a))
    ensures U.Listed(t, RefreshOf(j, answer))[i] == Appended(U.Known(RefreshOf(j, answer)), j.vs[a], false)
    ensures RightClass(rows0, j.vs[a], ClassAt(j, answer, a))
    ensures |Chosen(t, U.AppendedAll(RefreshOf(j, answer)), j.vs, U.Known(RefreshOf(j, answer)), false, a)| == i
  {
    a := U.ListedAt(t, RefreshOf(j, answer), i);
  }

  lemma ListedDiffer(rows0: Rows, j: Job, answer: seq<Stored>, t: Target)
    requires Fit(rows0, j) && JobIs(rows0, j.(phase := Phase.Read(answer), dedups := 0))
    ensures U.DistinctHashes(U.Listed(t, RefreshOf(j, answer)))
  {
    var es := U.Listed(t, RefreshOf(j, answer));
    forall x, y | 0 <= x < y < |es| ensures es[x].hash != es[y].hash {
      var a := ListedFrom(rows0, j, answer, t, x);
      var b := ListedFrom(rows0, j, answer, t, y);
      assert a != b;
    }
  }

  lemma ListedHas(rows0: Rows, j: Job, answer: seq<Stored>, t: Target, a: nat)
    requires Fit(rows0, j) && a < |j.vs| && Goes(t, ClassAt(j, answer, a))
    ensures HasHash(U.Listed(t, RefreshOf(j, answer)), j.vs[a].hash)
  {
    var r := RefreshOf(j, answer);
    U.ChosenHas(t, U.AppendedAll(r), r.vs, U.Known(r), r.force, |r.vs|, a);
    var n := |Chosen(t, U.AppendedAll(r), r.vs, U.Known(r), r.force, a)|;
    assert U.Listed(t, r)[n].hash == j.vs[a].hash;
  }

  lemma SortedLists(rows0: Rows, j: Job, answer: seq<Stored>)
    requires Fit(rows0, j) && JobIs(rows0, j.(phase := Phase.Read(answer), dedups := 0))
    ensures var r := RefreshOf(j, answer);
      ListsAre(rows0, j.vs, U.Listed(Target.Created, r), U.Listed(Target.Updated, r))
  {
    var r := RefreshOf(j, answer);
    var created, updated := U.Listed(Target.Created, r), U.Listed(Target.Updated, r);
    ListedDiffer(rows0, j, answer, Target.Created);
    ListedDiffer(rows0, j, answer, Target.Updated);
    forall i | 0 <= i < |created| ensures FromNew(rows0, j.vs, created[i]) {
      var a := ListedFrom(rows0, j, answer, Target.Created, i);
      assert created[i] == j.vs[a].(status := created[i].status);
    }
    forall i | 0 <= i < |updated| ensures FromOld(rows0, j.vs, updated[i]) {
      var a := ListedFrom(rows0, j, answer, Target.Updated, i);
      assert updated[i] == j.vs[a] && IsNewer(rows0, j.vs[a]);
    }
    forall a | 0 <= a < |j.vs|
      ensures KeyOf(j.vs[a]) !in rows0 ==> HasHash(created, j.vs[a].hash)
      ensures IsNewer(rows0, j.vs[a]) ==> HasHash(updated, j.vs[a].hash)
    {
      assert RightClass(rows0, j.vs[a], ClassAt(j, answer, a));
      if KeyOf(j.vs[a]) !in rows0 { ListedHas(rows0, j, answer, Target.Created, a); }
      if IsNewer(rows0, j.vs[a]) { ListedHas(rows0, j, answer, Target.Updated, a); }
    }
  }

  /** One more entry through `Append`: created or not, unread or counted. */
  lemma AppendOne(es: seq<EntryV>, v: EntryV, known: map<Hash, Stored>)
    requires ShownNew(v)
    ensures var c := ClassOf(known, v, false);
      var more := es + if Goes(Target.Created, c) then [Appended(known, v, false)] else [];
      DedupOrder.StillUnread(more, |more|) + (if c.CreateRead? then 1 else 0)
      == DedupOrder.StillUnread(es, |es|) + if Creates(c) then 1 else 0
  {
    DedupOrder.StillUnreadMore(es, Appended(known, v, false));
    assert es + [] == es;
  }

  /** `Append` silences exactly the new entries it counts. */
  lemma {:induction false} AppendAccounts(rows0: Rows, vs: seq<EntryV>, ws: seq<EntryV>, known: map<Hash, Stored>,
      k: nat)
    requires k <= |vs| == |ws|
    requires forall a :: 0 <= a < |vs| ==> ShownNew(vs[a]) && ws[a] == Appended(known, vs[a], false)
    requires forall a :: 0 <= a < |vs| ==> RightClass(rows0, vs[a], ClassOf(known, vs[a], false))
    ensures var es := Chosen(Target.Created, ws, vs, known, false, k);
      DedupOrder.StillUnread(es, |es|) + DedupCount(known, vs, false, k) == NewCount(rows0, vs, k)
  {
    if k > 0 {
      AppendAccounts(rows0, vs, ws, known, k - 1);
      AppendOne(Chosen(Target.Created, ws, vs, known, false, k - 1), vs[k - 1], known);
    }
  }

  lemma SortIs(rows0: Rows, j: Job, answer: seq<Stored>)
    requires Fit(rows0, j) && j.phase == Phase.Read(answer) && JobIs(rows0, j)
    ensures var r := RefreshOf(j, answer);
      JobIs(rows0, j.(phase := Phase.Sorted(U.Listed(Target.Created, r), U.Listed(Target.Updated, r)),
                      dedups := j.dedups + DedupCount(U.Known(r), r.vs, r.force, |r.vs|)))
  {
    SortedLists(rows0, j, answer);
    var r := RefreshOf(j, answer);
    AppendAccounts(rows0, j.vs, U.AppendedAll(r), U.Known(r), |j.vs|);
  }

  // ---- filtering ----

  lemma ScreenLists(rows0: Rows, vs: seq<EntryV>, es: seq<EntryV>, us: seq<EntryV>, fs: seq<EntryV>)
    requires ListsAre(rows0, vs, es, us) && U.SameButStatus(fs, es)
    ensures ListsAre(rows0, vs, fs, us)
  {
    assert forall i :: 0 <= i < |es| ==> fs[i].hash == es[i].hash;
    forall i | 0 <= i < |fs| ensures FromNew(rows0, vs, fs[i]) {
      assert FromNew(rows0, vs, es[i]);
      var a :| 0 <= a < |vs| && es[i] == vs[a].(status := es[i].status) && KeyOf(vs[a]) !in rows0;
      assert fs[i] == vs[a].(status := fs[i].status);
    }
    forall a | 0 <= a < |vs| && KeyOf(vs[a]) !in rows0 ensures HasHash(fs, vs[a].hash) {
      assert HasHash(es, vs[a].hash);
      var i :| 0 <= i < |es| && es[i].hash == vs[a].hash;
      assert fs[i].hash == vs[a].hash;
    }
  }

  /** What is recorded was recorded by another job than one that has not filtered. */
  lemma RecordedElsewhere(s0: State, s: State, k: nat, h: Hash)
    requires Ready(s0) && Inv(s0, s) && k < |s.jobs| && !PastFilter(s.jobs[k].phase)
    requires h in DedupOrder.SeenBy(s.seen, s.jobs[k].user)
    ensures DedupOrder.SeenBy(s.seen, s.jobs[k].user)[h] != s.jobs[k].feed
  {
    var feed := DedupOrder.SeenBy(s.seen, s.jobs[k].user)[h];
    assert RecordedBy(s.jobs, feed);
    var j :| 0 <= j < |s.jobs| && PastFilter(s.jobs[j].phase) && s.jobs[j].feed == feed;
    assert j != k && s0.jobs[j].feed == feed && s0.jobs[k].feed == s.jobs[k].feed;
  }

  lemma CreatedOfFeed(rows0: Rows, j: Job, created: seq<EntryV>, updated: seq<EntryV>, i: nat)
    requires Fit(rows0, j) && ListsAre(rows0, j.vs, created, updated) && i < |created|
    ensures created[i].feedID == j.feed && created[i].userID == j.user && !created[i].imported
  {
    assert FromNew(rows0, j.vs, created[i]);
  }

  /** The filter of a job gains what it does not deduplicate. */
  lemma ScreenAccounts(s0: State, s: State, k: nat)
    requires Ready(s0) && Inv(s0, s) && k < |s.jobs| && s.jobs[k].phase.Sorted?
    ensures var f, j := ScreenOf(s, k), s.jobs[k];
      NewCount(s0.rows, j.vs, |j.vs|) - (j.dedups + f.dedups) == f.created
  {
    var j := s.jobs[k];
    var es, seen := j.phase.created, DedupOrder.SeenBy(s.seen, j.user);
    assert JobIs(s0.rows, j);
    JobFits(s0, s, k);
    forall i | 0 <= i < |es| && es[i].hash in seen ensures !es[i].status.Unread? || seen[es[i].hash] != es[i].feedID {
      CreatedOfFeed(s0.rows, j, es, j.phase.updated, i);
      RecordedElsewhere(s0, s, k, es[i].hash);
    }
    C.FilterAccounts(seen, es, |es|);
  }

  lemma ScreenIs(rows0: Rows, j: Job, seen: Seen)
    requires JobIs(rows0, j) && j.phase.Sorted?
    ensures ListsAre(rows0, j.vs, FilterAll(seen, j.phase.created).entries, j.phase.updated)
  {
    U.FilterStatusOnly(seen, j.phase.created, |j.phase.created|);
    ScreenLists(rows0, j.vs, j.phase.created, j.phase.updated, FilterAll(seen, j.phase.created).entries);
  }

  lemma RecordedStays(a: seq<Job>, b: seq<Job>, feed: Id)
    requires C.SameWork(a, b) && RecordedBy(a, feed)
    requires forall i :: 0 <= i < |a| && PastFilter(a[i].phase) ==> PastFilter(b[i].phase)
    ensures RecordedBy(b, feed)
  {
    var i :| 0 <= i < |a| && PastFilter(a[i].phase) && a[i].feed == feed;
    assert PastFilter(b[i].phase) && b[i].feed == feed;
  }

  /** What a filter call adds it records for the job's own feed. */
  lemma AddedForOwn(rows0: Rows, j: Job, seen: Seen, h: Hash)
    requires Fit(rows0, j) && j.phase.Sorted? && JobIs(rows0, j)
    ensures var after := FilterAll(seen, j.phase.created).seen;
      (h in seen ==> h in after && after[h] == seen[h]) && (h in after && h !in seen ==> after[h] == j.feed)
  {
    var es := j.phase.created;
    C.FilterKeys(seen, es, |es|, h);
    if h in FilterAll(seen, es).seen && h !in seen {
      var i :| 0 <= i < |es| && es[i].hash == h && es[i].feedID == FilterAll(seen, es).seen[h];
      CreatedOfFeed(rows0, j, es, j.phase.updated, i);
    }
  }

  lemma ScreenSeenFrom(s0: State, s: State, k: nat)
    requires Ready(s0) && Inv(s0, s) && Enabled(s, Screen(k))
    ensures SeenFrom(Do(s, Screen(k)))
  {
    var t, j := Do(s, Screen(k)), s.jobs[k];
    assert JobIs(s0.rows, j);
    JobFits(s0, s, k);
    forall user, h | h in DedupOrder.SeenBy(t.seen, user)
      ensures RecordedBy(t.jobs, DedupOrder.SeenBy(t.seen, user)[h])
    {
      AddedForOwn(s0.rows, j, DedupOrder.SeenBy(s.seen, j.user), h);
      if h in DedupOrder.SeenBy(s.seen, user) {
        RecordedStays(s.jobs, t.jobs, DedupOrder.SeenBy(s.seen, user)[h]);
      } else {
        assert PastFilter(t.jobs[k].phase) && t.jobs[k].feed == j.feed;
      }
    }
  }

  // ---- committing ----

  /** An entry of the committing job has its row as due. */
  lemma CommitEntry(s0: State, s: State, k: nat, now: Time, a: nat)
    requires Ready(s0) && Inv(s0, s) && Enabled(s, Commit(k, now)) && a < |s.jobs[k].vs|
    ensures var v := s.jobs[k].vs[a]; Holds(Do(s, Commit(k, now)).rows, KeyOf(v), s.jobs[k].user, Due(s0.rows, v))
  {
    var j := s.jobs[k];
    var es, us, v := j.phase.created, j.phase.updated, j.vs[a];
    assert JobIs(s0.rows, j);
    JobFits(s0, s, k);
    OwnRows(s0, s, k, KeyOf(v));
    InsertMeaning(AfterUpdates(s, k, now), es, s.next, now, |es|);
    if KeyOf(v) !in s0.rows {
      CreatedEntry(s0.rows, j, es, us, a);
    } else {
      UpdatedDate(s0.rows, s.rows, j, es, us, now, a);
    }
  }

  lemma CreatedEntry(rows0: Rows, j: Job, es: seq<EntryV>, us: seq<EntryV>, a: nat)
    requires Fit(rows0, j) && ListsAre(rows0, j.vs, es, us) && a < |j.vs| && KeyOf(j.vs[a]) !in rows0
    ensures exists i :: 0 <= i < |es| && es[i] == j.vs[a].(status := es[i].status)
  {
    assert HasHash(es, j.vs[a].hash);
    var i :| 0 <= i < |es| && es[i].hash == j.vs[a].hash;
    assert FromNew(rows0, j.vs, es[i]);
    var b :| 0 <= b < |j.vs| && es[i] == j.vs[b].(status := es[i].status);
    assert b == a;
  }

  lemma UpdatedDate(rows0: Rows, rows: Rows, j: Job, es: seq<EntryV>, us: seq<EntryV>, now: Time, a: nat)
    requires Fit(rows0, j) && ListsAre(rows0, j.vs, es, us) && a < |j.vs|
    requires KeyOf(j.vs[a]) in rows0 && SameRow(rows0, rows, KeyOf(j.vs[a]))
    ensures Holds(UpdateTo(rows, us, now, |us|), KeyOf(j.vs[a]), j.user, Due(rows0, j.vs[a]))
  {
    var v := j.vs[a];
    if IsNewer(rows0, v) {
      assert HasHash(us, v.hash);
      var i :| 0 <= i < |us| && us[i].hash == v.hash;
      assert FromOld(rows0, j.vs, us[i]);
      var b :| 0 <= b < |j.vs| && us[i] == j.vs[b];
      assert b == a;
      UpdateOnce(rows, us, now, |us|, i);
    } else {
      forall i | 0 <= i < |us| ensures KeyOf(us[i]) != KeyOf(v) {
        assert FromOld(rows0, j.vs, us[i]);
      }
      UpdateOthers(rows, us, now, |us|, KeyOf(v));
    }
  }

  /** Keys the job does not bring keep their rows. */
  lemma CommitOther(s0: State, s: State, k: nat, now: Time, key: Key)
    requires Ready(s0) && Inv(s0, s) && Enabled(s, Commit(k, now))
    requires forall a :: 0 <= a < |s.jobs[k].vs| ==> KeyOf(s.jobs[k].vs[a]) != key
    ensures SameRow(s.rows, Do(s, Commit(k, now)).rows, key)
  {
    var j := s.jobs[k];
    var es, us := j.phase.created, j.phase.updated;
    assert JobIs(s0.rows, j);
    InsertMeaning(AfterUpdates(s, k, now), es, s.next, now, |es|);
    forall i | 0 <= i < |us| ensures KeyOf(us[i]) != key { assert FromOld(s0.rows, j.vs, us[i]); }
    forall i | 0 <= i < |es| ensures KeyOf(es[i]) != key { assert FromNew(s0.rows, j.vs, es[i]); }
    if key in s.rows { UpdateOthers(s.rows, us, now, |us|, key); }
  }

  lemma CommitOwnRow(s0: State, s: State, k: nat, now: Time, a: nat)
    requires Ready(s0) && Inv(s0, s) && Enabled(s, Commit(k, now)) && a < |s.jobs[k].vs|
    ensures RowIs(s0.rows, Do(s, Commit(k, now)), KeyOf(s.jobs[k].vs[a]))
  {
    var t, key := Do(s, Commit(k, now)), KeyOf(s.jobs[k].vs[a]);
    CommitEntry(s0, s, k, now, a);
    JobFits(s0, s, k);
    forall j: nat, b: nat | WroteAt(t.jobs, key, j, b) ensures j == k && b == a { OnlyOwn(s0, t, key, k, j, b); }
    assert WroteAt(t.jobs, key, k, a);
  }

  lemma CommitOtherRow(s0: State, s: State, k: nat, now: Time, key: Key)
    requires Ready(s0) && Inv(s0, s) && Enabled(s, Commit(k, now))
    requires forall a :: 0 <= a < |s.jobs[k].vs| ==> KeyOf(s.jobs[k].vs[a]) != key
    ensures RowIs(s0.rows, Do(s, Commit(k, now)), key)
  {
    var t := Do(s, Commit(k, now));
    assert RowIs(s0.rows, s, key);
    CommitOther(s0, s, k, now, key);
    assert forall j: nat, b: nat :: WroteAt(t.jobs, key, j, b) <==> WroteAt(s.jobs, key, j, b);
  }

  lemma CommitTable(s0: State, s: State, k: nat, now: Time)
    requires Ready(s0) && Inv(s0, s) && Enabled(s, Commit(k, now))
    ensures TableIs(s0.rows, Do(s, Commit(k, now)))
  {
    forall key ensures RowIs(s0.rows, Do(s, Commit(k, now)), key) {
      if a :| 0 <= a < |s.jobs[k].vs| && KeyOf(s.jobs[k].vs[a]) == key {
        CommitOwnRow(s0, s, k, now, a);
      } else {
        CommitOtherRow(s0, s, k, now, key);
      }
    }
  }

  // ---- every step ----

  lemma TableStays(s0: State, s: State, t: State)
    requires TableIs(s0.rows, s) && C.SameWork(s.jobs, t.jobs) && t.rows == s.rows
    requires forall j :: 0 <= j < |s.jobs| ==> (s.jobs[j].phase.Committed? <==> t.jobs[j].phase.Committed?)
    ensures TableIs(s0.rows, t)
  {
    forall key ensures RowIs(s0.rows, t, key) {
      assert RowIs(s0.rows, s, key);
      assert forall j: nat, a: nat :: WroteAt(t.jobs, key, j, a) <==> WroteAt(s.jobs, key, j, a);
    }
  }

  lemma SeenFromStays(s: State, t: State)
    requires SeenFrom(s) && C.SameWork(s.jobs, t.jobs) && C.SamePast(s.jobs, t.jobs) && t.seen == s.seen
    ensures SeenFrom(t)
  {
    forall user, h | h in DedupOrder.SeenBy(t.seen, user)
      ensures RecordedBy(t.jobs, DedupOrder.SeenBy(t.seen, user)[h])
    {
      RecordedStays(s.jobs, t.jobs, DedupOrder.SeenBy(s.seen, user)[h]);
    }
  }

  lemma {:induction false} GainedChanges(rows0: Rows, jobs: seq<Job>, k: nat, j: Job)
    requires k < |jobs|
    ensures Gained(rows0, jobs[k := j]) == Gained(rows0, jobs) - Gain(rows0, jobs[k]) + Gain(rows0, j)
  {
    var n := |jobs| - 1;
    if k == n {
      assert jobs[k := j][..n] == jobs[..n];
    } else {
      assert jobs[k := j][..n] == jobs[..n][k := j];
      GainedChanges(rows0, jobs[..n], k, j);
    }
  }

  /** The job that moves is as it should be afterwards. */
  lemma MoverIs(s0: State, s: State, step: Step)
    requires Ready(s0) && Inv(s0, s) && Enabled(s, step) && !step.Outside?
    ensures JobIs(s0.rows, Do(s, step).jobs[step.k])
  {
    var j := s.jobs[step.k];
    assert JobIs(s0.rows, j);
    JobFits(s0, s, step.k);
    match step
    case ReadRows(k, answer) => ReadIs(s0, s, k, answer);
    case Sort(k) => SortIs(s0.rows, j, j.phase.answer);
    case Screen(k) => ScreenIs(s0.rows, j, DedupOrder.SeenBy(s.seen, j.user));
    case _ =>
  }

  lemma StepJobs(s0: State, s: State, step: Step)
    requires Ready(s0) && Inv(s0, s) && Enabled(s, step) && !step.Outside?
    ensures JobsAre(s0.rows, Do(s, step))
  {
    var t := Do(s, step);
    MoverIs(s0, s, step);
    forall j | 0 <= j < |t.jobs| ensures JobIs(s0.rows, t.jobs[j]) {
      if j != step.k { assert t.jobs[j] == s.jobs[j] && JobIs(s0.rows, s.jobs[j]); }
    }
  }

  lemma StepGained(s0: State, s: State, step: Step)
    requires Ready(s0) && Inv(s0, s) && Enabled(s, step) && !step.Outside?
    ensures Do(s, step).created == Gained(s0.rows, Do(s, step).jobs)
  {
    GainedChanges(s0.rows, s.jobs, step.k, Do(s, step).jobs[step.k]);
    if step.Screen? { ScreenAccounts(s0, s, step.k); } else { C.StepWork(s, step); }
  }

  lemma StepTable(s0: State, s: State, step: Step)
    requires Ready(s0) && Inv(s0, s) && Enabled(s, step) && !step.Outside?
    ensures TableIs(s0.rows, Do(s, step))
  {
    if step.Commit? {
      CommitTable(s0, s, step.k, step.now);
    } else {
      C.StepWork(s, step);
      TableStays(s0, s, Do(s, step));
    }
  }

  lemma StepInv(s0: State, s: State, step: Step)
    requires Ready(s0) && Inv(s0, s) && Enabled(s, step) && !step.Outside?
    ensures Inv(s0, Do(s, step))
  {
    C.StepWork(s, step);
    StepTable(s0, s, step);
    StepJobs(s0, s, step);
    StepGained(s0, s, step);
    if step.Screen? { ScreenSeenFrom(s0, s, step.k); } else { SeenFromStays(s, Do(s, step)); }
  }

  lemma {:induction false} NoneGained(rows0: Rows, jobs: seq<Job>)
    requires forall j :: 0 <= j < |jobs| ==> jobs[j].phase.Idle?
    ensures Gained(rows0, jobs) == 0
  {
    if jobs != [] { NoneGained(rows0, jobs[..|jobs| - 1]); }
  }

  lemma InvStart(s0: State)
    requires Ready(s0)
    ensures Inv(s0, s0)
  {
    assert forall j :: 0 <= j < |s0.jobs| ==> StartsIdle(s0.jobs[j]);
    NoneGained(s0.rows, s0.jobs);
    forall key ensures RowIs(s0.rows, s0, key) {}
  }

  lemma {:induction false} RunInv(s0: State, s: State, steps: seq<Step>)
    requires Ready(s0) && Inv(s0, s) && IsRun(s, steps) && NothingOutside(steps)
    ensures Inv(s0, After(s, steps))
    decreases |steps|
  {
    if steps != [] {
      StepInv(s0, s, steps[0]);
      RunInv(s0, Do(s, steps[0]), steps[1..]);
    }
  }
}
