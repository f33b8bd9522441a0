/**
 What a batch counts, over every schedule of its refreshes (internal/storage/dedup.go,
 internal/storage/entry.go, internal/model/feed.go). Which entries reach the filter unread depends
 on the schedule, because a refresh reads what others have committed; for entries that are new to
 their users the totals do not.
 */
module BatchCounts {
  import opened BatchDedup
  import opened EntryRows
  import opened RefreshSpec
  import DedupOrder
  import U = UpsertSpec

  function SeenOf(s: State, j: nat): Seen
    requires j < |s.jobs|
  {
    DedupOrder.SeenBy(s.seen, s.jobs[j].user)
  }

  ghost predicate Entry(jobs: seq<Job>, j: nat, a: nat) { j < |jobs| && a < |jobs[j].vs| }

  /** The same article of the same feed. */
  predicate Same(jobs: seq<Job>, j: nat, a: nat, k: nat, b: nat)
    requires j < |jobs| && a < |jobs[j].vs| && k < |jobs| && b < |jobs[k].vs|
  {
    jobs[j].user == jobs[k].user && jobs[j].feed == jobs[k].feed && jobs[j].vs[a].hash == jobs[k].vs[b].hash
  }

  /** All entries are unread, none is imported, and no feed repeats a hash or is refreshed twice with it. */
  ghost predicate CleanBatch(jobs: seq<Job>) {
    && (forall j: nat, a: nat :: Entry(jobs, j, a) ==> ShownNew(jobs[j].vs[a]))
    && (forall j: nat, a: nat, k: nat, b: nat ::
          Entry(jobs, j, a) && Entry(jobs, k, b) && Same(jobs, j, a, k, b) ==> j == k && a == b)
  }

  /** The row is a copy of entry `a` of job `j` that the user already has. */
  ghost predicate Copy(s: State, key: Key, j: nat, a: nat)
    requires Entry(s.jobs, j, a)
  {
    key in s.rows && s.rows[key].userID == s.jobs[j].user && key.hash == s.jobs[j].vs[a].hash
  }

  /** The users have none of the batch's hashes yet. */
  ghost predicate AllNew(s: State) {
    forall key, j: nat, a: nat :: Entry(s.jobs, j, a) ==> !Copy(s, key, j, a)
  }

  /** The distinct (user, hash) pairs of the batch. */
  ghost function BatchPairs(jobs: seq<Job>): set<DedupOrder.Pair> {
    set j, a | 0 <= j < |jobs| && 0 <= a < |jobs[j].vs| :: (jobs[j].user, jobs[j].vs[a].hash)
  }

  function EntryCount(jobs: seq<Job>): nat {
    if jobs == [] then 0 else EntryCount(jobs[..|jobs| - 1]) + |jobs[|jobs| - 1].vs|
  }

  /** The dedups of all refreshes, from `Append` and from the filter. */
  function DedupSum(jobs: seq<Job>): nat {
    if jobs == [] then 0 else DedupSum(jobs[..|jobs| - 1]) + jobs[|jobs| - 1].dedups
  }

  // ---- the invariant ----

  ghost predicate Filtered(jobs: seq<Job>, user: Id, h: Hash) {
    exists j: nat, a: nat :: FilteredAt(jobs, j, a, user, h)
  }

  ghost predicate FilteredAt(jobs: seq<Job>, j: nat, a: nat, user: Id, h: Hash) {
    Entry(jobs, j, a) && PastFilter(jobs[j].phase) && jobs[j].user == user && jobs[j].vs[a].hash == h
  }

  /** Recorded are exactly the hashes of the filtered jobs, each with the feed of one of them. */
  ghost predicate SeenAreFiltered(s: State) {
    forall user, h :: RecordedRight(s.jobs, user, h, DedupOrder.SeenBy(s.seen, user))
  }

  ghost predicate RecordedRight(jobs: seq<Job>, user: Id, h: Hash, seen: Seen) {
    (h in seen <==> Filtered(jobs, user, h)) && (h in seen ==> BroughtBy(jobs, user, h, seen[h]))
  }

  ghost predicate BroughtBy(jobs: seq<Job>, user: Id, h: Hash, feed: Id) {
    exists j: nat, a: nat :: FilteredAt(jobs, j, a, user, h) && jobs[j].feed == feed
  }

  /** A copy of an entry is stored only after its hash was recorded, and the feed's own only by its commit. */
  ghost predicate RowsAreSeen(s: State) {
    forall key, j: nat, a: nat :: Entry(s.jobs, j, a) && Copy(s, key, j, a) ==>
      key.hash in SeenOf(s, j) && (key.feed == s.jobs[j].feed ==> s.jobs[j].phase.Committed?)
  }

  /** A created entry: as it came, or turned to read because its hash is recorded. */
  predicate AsCreated(e: EntryV, v: EntryV, seen: Seen) { e == v || (e == v.(status := Status.Read) && v.hash in seen) }

  ghost predicate JobOK(j: Job, seen: Seen) {
    && U.OfFeed(j.vs, j.user, j.feed)
    && match j.phase
       case Idle => j.dedups == 0
       case Read(answer) => j.dedups == 0 && AllCreate(RefreshOf(j, answer), seen)
       case Sorted(created, updated) =>
         && updated == [] && |created| == |j.vs|
         && (forall a :: 0 <= a < |j.vs| ==> AsCreated(created[a], j.vs[a], seen))
         && DedupOrder.StillUnread(created, |created|) + j.dedups == |j.vs|
       case Screened(created, updated) => updated == [] && OnlyStatus(created, j.vs)
       case Committed(created) => OnlyStatus(created, j.vs)
       case RolledBack(screened, created) => screened ==> OnlyStatus(created, j.vs)
  }

  ghost predicate OnlyStatus(es: seq<EntryV>, vs: seq<EntryV>) { U.SameButStatus(es, vs) }

  /** Every entry of the refresh is created, read only if its hash is recorded. */
  ghost predicate AllCreate(r: U.Refresh, seen: Seen) {
    forall a :: 0 <= a < |r.vs| ==>
      var c := ClassOf(U.Known(r), r.vs[a], r.force);
      Creates(c) && (c.CreateRead? ==> r.vs[a].hash in seen)
  }

  ghost predicate JobsOK(s: State) { forall j :: 0 <= j < |s.jobs| ==> JobOK(s.jobs[j], SeenOf(s, j)) }

  /** Entries of the filtered jobs that were not deduplicated. */
  function Gained(jobs: seq<Job>): int {
    if jobs == [] then 0 else
    var j := jobs[|jobs| - 1];
    Gained(jobs[..|jobs| - 1]) + Gain(j)
  }

  function Gain(j: Job): int { if PastFilter(j.phase) then |j.vs| - j.dedups else 0 }

  ghost predicate CountsOK(s: State) {
    s.created == |DedupOrder.Pairs(s.seen)| && s.created == Gained(s.jobs)
  }

  ghost predicate CleanInv(s: State) {
    CleanBatch(s.jobs) && SeenAreFiltered(s) && RowsAreSeen(s) && JobsOK(s) && CountsOK(s)
  }

  // ---- one call of the filter ----

  /** On different hashes, none recorded for the feed itself, every unread entry is counted once. */
  lemma {:induction false} FilterAccounts(seen: Seen, es: seq<EntryV>, k: nat)
    requires k <= |es|
    requires forall i, j :: 0 <= i < j < |es| ==> es[i].hash != es[j].hash
    requires forall i :: 0 <= i < |es| && es[i].hash in seen ==>
      !es[i].status.Unread? || seen[es[i].hash] != es[i].feedID
    ensures var f := FilterTo(seen, es, k); f.created + f.dedups == DedupOrder.StillUnread(es, k)
  {
    if k > 0 {
      FilterAccounts(seen, es, k - 1);
      FilterSkips(seen, es, k - 1, es[k - 1].hash);
    }
  }

  /** The recorded hashes after a call, and their feeds. */
  lemma {:induction false} FilterKeys(seen: Seen, es: seq<EntryV>, k: nat, h: Hash)
    requires k <= |es|
    ensures var g := FilterTo(seen, es, k).seen;
      && (h in g <==> h in seen || exists i :: 0 <= i < k && es[i].status.Unread? && es[i].hash == h)
      && (h in seen ==> g[h] == seen[h])
      && (h in g && h !in seen ==> exists i :: 0 <= i < k && es[i].hash == h && es[i].feedID == g[h])
  {
    if k > 0 { FilterKeys(seen, es, k - 1, h); }
  }

  // ---- the steps ----

  lemma ReadAllCreate(s: State, k: nat, answer: seq<Stored>)
    requires CleanInv(s) && Enabled(s, ReadRows(k, answer))
    ensures AllCreate(RefreshOf(s.jobs[k], answer), SeenOf(s, k))
  {
    var j := s.jobs[k];
    var r := RefreshOf(j, answer);
    forall a | 0 <= a < |j.vs|
      ensures var c := ClassOf(U.Known(r), j.vs[a], j.force);
        Creates(c) && (c.CreateRead? ==> j.vs[a].hash in SeenOf(s, k))
    {
      StoredByMeaning(j.feed, answer, j.vs[a].hash);
      if j.vs[a].hash in U.Known(r) {
        var known := U.Known(r)[j.vs[a].hash];
        var n :| 0 <= n < |answer| && answer[n] == known;
        assert Published(s.rows, j.user, U.HashesOf(j.vs), Key(known.feedID, known.hash));
        assert Entry(s.jobs, k, a) && Copy(s, Key(known.feedID, known.hash), k, a);
      }
    }
  }

  /** When every entry is created, the lists are all of them and none. */
  lemma {:induction false} AllChosen<T>(r: U.Refresh, items: seq<T>, k: nat)
    requires k <= |items| == |r.vs|
    requires forall a :: 0 <= a < k ==> Creates(ClassOf(U.Known(r), r.vs[a], r.force))
    ensures Chosen(Target.Created, items, r.vs, U.Known(r), r.force, k) == items[..k]
    ensures Chosen(Target.Updated, items, r.vs, U.Known(r), r.force, k) == []
  {
    if k > 0 { AllChosen(r, items, k - 1); }
  }

  /** `Append` silences exactly the entries it counts. */
  lemma {:induction false} AppendAccounts(r: U.Refresh, k: nat)
    requires k <= |r.vs| && forall a :: 0 <= a < |r.vs| ==>
      ShownNew(r.vs[a]) && Creates(ClassOf(U.Known(r), r.vs[a], r.force))
    ensures DedupOrder.StillUnread(U.AppendedAll(r), k) + DedupCount(U.Known(r), r.vs, r.force, k) == k
  {
    if k > 0 { AppendAccounts(r, k - 1); }
  }

  lemma ListsAreAll(r: U.Refresh)
    requires forall a :: 0 <= a < |r.vs| ==> Creates(ClassOf(U.Known(r), r.vs[a], r.force))
    ensures U.Listed(Target.Created, r) == U.AppendedAll(r) && U.Listed(Target.Updated, r) == []
  {
    AllChosen(r, U.AppendedAll(r), |r.vs|);
  }

  lemma AllAsCreated(r: U.Refresh, seen: Seen)
    requires AllCreate(r, seen)
    ensures forall a :: 0 <= a < |r.vs| ==> AsCreated(U.AppendedAll(r)[a], r.vs[a], seen)
  {
    forall a | 0 <= a < |r.vs| ensures AsCreated(U.AppendedAll(r)[a], r.vs[a], seen) {
      AppendedAs(U.Known(r), r.vs[a], r.force, seen);
    }
  }

  lemma SortedOK(j: Job, seen: Seen)
    requires j.phase.Read? && JobOK(j, seen) && forall a :: 0 <= a < |j.vs| ==> ShownNew(j.vs[a])
    ensures var r := RefreshOf(j, j.phase.answer);
      JobOK(j.(phase := Sorted(U.Listed(Target.Created, r), U.Listed(Target.Updated, r)),
               dedups := j.dedups + DedupCount(U.Known(r), r.vs, r.force, |r.vs|)), seen)
  {
    var r := RefreshOf(j, j.phase.answer);
    ListsAreAll(r);
    AppendAccounts(r, |r.vs|);
    AllAsCreated(r, seen);
  }

  lemma AppendedAs(known: map<Hash, Stored>, v: EntryV, force: bool, seen: Seen)
    requires Creates(ClassOf(known, v, force)) && (ClassOf(known, v, force).CreateRead? ==> v.hash in seen)
    ensures AsCreated(Appended(known, v, force), v, seen)
  {
  }

  /** Nothing a job brings unread is recorded for its own feed before its filter. */
  lemma NotOwn(s: State, k: nat, i: nat)
    requires CleanInv(s) && k < |s.jobs| && s.jobs[k].phase.Sorted? && i < |s.jobs[k].vs|
    requires s.jobs[k].vs[i].hash in SeenOf(s, k)
    ensures SeenOf(s, k)[s.jobs[k].vs[i].hash] != s.jobs[k].feed
  {
    var h := s.jobs[k].vs[i].hash;
    assert RecordedRight(s.jobs, s.jobs[k].user, h, SeenOf(s, k));
    var j: nat, a: nat :| FilteredAt(s.jobs, j, a, s.jobs[k].user, h) && s.jobs[j].feed == SeenOf(s, k)[h];
    assert Entry(s.jobs, k, i) && Entry(s.jobs, j, a);
    assert j != k && !Same(s.jobs, j, a, k, i);
  }

  lemma HashesDiffer(s: State, k: nat)
    requires CleanBatch(s.jobs) && k < |s.jobs|
    ensures U.DistinctHashes(s.jobs[k].vs)
  {
    forall a, b | 0 <= a < b < |s.jobs[k].vs| ensures s.jobs[k].vs[a].hash != s.jobs[k].vs[b].hash {
      assert Entry(s.jobs, k, a) && Entry(s.jobs, k, b);
    }
  }

  /** What reaches a filter unread and recorded was recorded for another feed. */
  lemma RecordedElsewhere(s: State, k: nat, i: nat)
    requires CleanInv(s) && k < |s.jobs| && s.jobs[k].phase.Sorted? && i < |s.jobs[k].phase.created|
    requires s.jobs[k].phase.created[i].hash in SeenOf(s, k)
    ensures var e := s.jobs[k].phase.created[i]; !e.status.Unread? || SeenOf(s, k)[e.hash] != e.feedID
  {
    var j := s.jobs[k];
    assert JobOK(j, SeenOf(s, k));
    assert AsCreated(j.phase.created[i], j.vs[i], SeenOf(s, k));
    NotOwn(s, k, i);
  }

  lemma CreatedDiffer(j: Job, seen: Seen)
    requires j.phase.Sorted? && JobOK(j, seen) && U.DistinctHashes(j.vs)
    ensures U.DistinctHashes(j.phase.created)
  {
    var es := j.phase.created;
    assert forall i :: 0 <= i < |es| ==> AsCreated(es[i], j.vs[i], seen) && es[i].hash == j.vs[i].hash;
  }

  /** The filter of a job gains what it does not deduplicate. */
  lemma ScreenAccounts(s: State, k: nat)
    requires CleanInv(s) && k < |s.jobs| && s.jobs[k].phase.Sorted?
    ensures var f := ScreenOf(s, k); |s.jobs[k].vs| - (s.jobs[k].dedups + f.dedups) == f.created
  {
    var es, seen := s.jobs[k].phase.created, SeenOf(s, k);
    assert JobOK(s.jobs[k], seen);
    HashesDiffer(s, k);
    CreatedDiffer(s.jobs[k], seen);
    forall i | 0 <= i < |es| && es[i].hash in seen ensures !es[i].status.Unread? || seen[es[i].hash] != es[i].feedID {
      RecordedElsewhere(s, k, i);
    }
    FilterAccounts(seen, es, |es|);
  }

  lemma ScreenedOnlyStatus(seen: Seen, j: Job)
    requires j.phase.Sorted? && JobOK(j, seen)
    ensures OnlyStatus(FilterAll(seen, j.phase.created).entries, j.vs)
  {
    var es, fs := j.phase.created, FilterAll(seen, j.phase.created).entries;
    U.FilterStatusOnly(seen, es, |es|);
    forall i | 0 <= i < |fs| ensures fs[i] == j.vs[i].(status := fs[i].status) {
      assert AsCreated(es[i], j.vs[i], seen) && fs[i] == es[i].(status := fs[i].status);
    }
  }

  /** A step changes phases and dedups of jobs, nothing else of them. */
  ghost predicate SameWork(a: seq<Job>, b: seq<Job>) {
    |a| == |b| && forall j :: 0 <= j < |a| ==> a[j].(phase := b[j].phase, dedups := b[j].dedups) == b[j]
  }

  lemma CleanStays(a: seq<Job>, b: seq<Job>)
    requires SameWork(a, b) && CleanBatch(a)
    ensures CleanBatch(b)
  {
    assert forall j: nat, x: nat :: Entry(b, j, x) ==> Entry(a, j, x) && a[j].vs[x] == b[j].vs[x];
    forall j: nat, x: nat, k: nat, y: nat | Entry(b, j, x) && Entry(b, k, y) && Same(b, j, x, k, y)
      ensures j == k && x == y {
      assert Entry(a, j, x) && Entry(a, k, y) && Same(a, j, x, k, y);
    }
  }

  /** No job got past the filter or was taken back. */
  ghost predicate SamePast(a: seq<Job>, b: seq<Job>) {
    |a| == |b| && forall j :: 0 <= j < |a| ==> (PastFilter(a[j].phase) <==> PastFilter(b[j].phase))
  }

  lemma SeenStays(s: State, t: State)
    requires SeenAreFiltered(s) && SameWork(s.jobs, t.jobs) && SamePast(s.jobs, t.jobs) && t.seen == s.seen
    ensures SeenAreFiltered(t)
  {
    forall user, h ensures RecordedRight(t.jobs, user, h, DedupOrder.SeenBy(t.seen, user)) {
      assert RecordedRight(s.jobs, user, h, DedupOrder.SeenBy(s.seen, user));
      RightStays(s.jobs, t.jobs, user, h, DedupOrder.SeenBy(s.seen, user));
    }
  }

  lemma RightStays(a: seq<Job>, b: seq<Job>, user: Id, h: Hash, seen: Seen)
    requires RecordedRight(a, user, h, seen) && SameWork(a, b) && SamePast(a, b)
    ensures RecordedRight(b, user, h, seen)
  {
    if h in seen {
      var i: nat, x: nat :| FilteredAt(a, i, x, user, h) && a[i].feed == seen[h];
      assert FilteredAt(b, i, x, user, h);
    } else if Filtered(b, user, h) {
      var i: nat, x: nat :| FilteredAt(b, i, x, user, h);
      assert FilteredAt(a, i, x, user, h);
    }
  }

  lemma {:induction false} GainedChanges(jobs: seq<Job>, k: nat, j: Job)
    requires k < |jobs|
    ensures Gained(jobs[k := j]) == Gained(jobs) - Gain(jobs[k]) + Gain(j)
  {
    var n := |jobs| - 1;
    if k == n {
      assert jobs[k := j][..n] == jobs[..n];
    } else {
      assert jobs[k := j][..n] == jobs[..n][k := j];
      GainedChanges(jobs[..n], k, j);
    }
  }

  // ---- the invariant over a run ----

  lemma StepWork(s: State, step: Step)
    requires Enabled(s, step)
    ensures SameWork(s.jobs, Do(s, step).jobs)
    ensures !step.Screen? ==> SamePast(s.jobs, Do(s, step).jobs) && Do(s, step).created == s.created
    ensures !step.Screen? ==> Do(s, step).seen == s.seen
  {
  }

  /** Job `j` brings the hash for the user. */
  ghost predicate Brings(j: Job, user: Id, h: Hash) {
    user == j.user && exists a :: 0 <= a < |j.vs| && j.vs[a].hash == h
  }

  /** A filter step of job `j` records what the job brings and keeps what was recorded. */
  ghost predicate Records(j: Job, user: Id, h: Hash, before: Seen, after: Seen) {
    && (h in after <==> h in before || Brings(j, user, h))
    && (h in before ==> h in after && after[h] == before[h])
    && (h in after && h !in before ==> after[h] == j.feed)
  }

  lemma FilterRecordsAll(j: Job, seen: Seen, h: Hash)
    requires j.phase.Sorted? && JobOK(j, seen) && forall a :: 0 <= a < |j.vs| ==> ShownNew(j.vs[a])
    ensures Records(j, j.user, h, seen, FilterAll(seen, j.phase.created).seen)
  {
    var es := j.phase.created;
    assert forall a :: 0 <= a < |es| ==> AsCreated(es[a], j.vs[a], seen);
    FilterKeys(seen, es, |es|, h);
    if a :| 0 <= a < |j.vs| && j.vs[a].hash == h && h !in seen {
      assert es[a] == j.vs[a];
    }
  }

  lemma ScreenKeys(s: State, k: nat, user: Id, h: Hash)
    requires CleanInv(s) && k < |s.jobs| && s.jobs[k].phase.Sorted?
    ensures Records(s.jobs[k], user, h, DedupOrder.SeenBy(s.seen, user), DedupOrder.SeenBy(Do(s, Screen(k)).seen, user))
  {
    if user == s.jobs[k].user {
      assert JobOK(s.jobs[k], SeenOf(s, k));
      assert forall a :: 0 <= a < |s.jobs[k].vs| ==> Entry(s.jobs, k, a);
      FilterRecordsAll(s.jobs[k], SeenOf(s, k), h);
    }
  }

  /** One more filtered job. */
  lemma FilteredGrows(jobs: seq<Job>, k: nat, j: Job, user: Id, h: Hash, before: Seen, after: Seen)
    requires k < |jobs| && jobs[k].(phase := j.phase, dedups := j.dedups) == j && PastFilter(j.phase)
      && !PastFilter(jobs[k].phase)
    requires RecordedRight(jobs, user, h, before) && Records(j, user, h, before, after)
    ensures RecordedRight(jobs[k := j], user, h, after)
  {
    var jobs' := jobs[k := j];
    if h in before {
      var i: nat, a: nat :| FilteredAt(jobs, i, a, user, h) && jobs[i].feed == before[h];
      assert FilteredAt(jobs', i, a, user, h);
    } else if h in after {
      var a :| 0 <= a < |j.vs| && j.vs[a].hash == h;
      assert FilteredAt(jobs', k, a, user, h);
    } else if Filtered(jobs', user, h) {
      var i: nat, a: nat :| FilteredAt(jobs', i, a, user, h);
      assert i != k && FilteredAt(jobs, i, a, user, h);
    }
  }

  lemma ScreenSeen(s: State, k: nat)
    requires CleanInv(s) && Enabled(s, Screen(k))
    ensures SeenAreFiltered(Do(s, Screen(k)))
  {
    var t := Do(s, Screen(k));
    forall user, h ensures RecordedRight(t.jobs, user, h, DedupOrder.SeenBy(t.seen, user)) {
      ScreenKeys(s, k, user, h);
      assert RecordedRight(s.jobs, user, h, DedupOrder.SeenBy(s.seen, user));
      FilteredGrows(s.jobs, k, t.jobs[k], user, h, DedupOrder.SeenBy(s.seen, user), DedupOrder.SeenBy(t.seen, user));
    }
  }

  /** What is recorded stays recorded. */
  lemma StepRecords(s: State, step: Step, user: Id, h: Hash)
    requires CleanInv(s) && Enabled(s, step) && !step.Outside? && h in DedupOrder.SeenBy(s.seen, user)
    ensures h in DedupOrder.SeenBy(Do(s, step).seen, user)
  {
    if step.Screen? { ScreenKeys(s, step.k, user, h); }
  }

  lemma StepRows(s: State, step: Step)
    requires CleanInv(s) && Enabled(s, step) && !step.Outside?
    ensures RowsAreSeen(Do(s, step))
  {
    var t := Do(s, step);
    StepWork(s, step);
    forall key, j: nat, a: nat | Entry(t.jobs, j, a) && Copy(t, key, j, a)
      ensures key.hash in SeenOf(t, j) && (key.feed == t.jobs[j].feed ==> t.jobs[j].phase.Committed?)
    {
      assert Entry(s.jobs, j, a);
      if step.Commit? {
        CommitRow(s, step.k, step.now, key, j, a);
      } else {
        assert Copy(s, key, j, a);
        StepRecords(s, step, s.jobs[j].user, key.hash);
      }
    }
  }

  lemma CommitRow(s: State, k: nat, now: Time, key: Key, j: nat, a: nat)
    requires CleanInv(s) && Enabled(s, Commit(k, now)) && Entry(s.jobs, j, a)
    requires Entry(Do(s, Commit(k, now)).jobs, j, a) && Copy(Do(s, Commit(k, now)), key, j, a)
    ensures var t := Do(s, Commit(k, now));
      key.hash in SeenOf(t, j) && (key.feed == t.jobs[j].feed ==> t.jobs[j].phase.Committed?)
  {
    var w := s.jobs[k];
    var es := w.phase.created;
    assert JobOK(w, SeenOf(s, k));
    assert AfterUpdates(s, k, now) == s.rows;
    InsertMeaning(s.rows, es, s.next, now, |es|);
    if key in s.rows {
      assert Copy(s, key, j, a);
    } else {
      var i :| 0 <= i < |es| && KeyOf(es[i]) == key;
      CommittedEntry(s, k, i, j, a);
    }
  }

  lemma CommittedEntry(s: State, k: nat, i: nat, j: nat, a: nat)
    requires CleanInv(s) && k < |s.jobs| && s.jobs[k].phase.Screened? && i < |s.jobs[k].phase.created|
      && Entry(s.jobs, j, a)
    requires var e := s.jobs[k].phase.created[i]; e.userID == s.jobs[j].user && e.hash == s.jobs[j].vs[a].hash
    ensures s.jobs[j].vs[a].hash in SeenOf(s, j)
    ensures s.jobs[k].phase.created[i].feedID == s.jobs[j].feed ==> j == k
  {
    var w := s.jobs[k];
    assert JobOK(w, SeenOf(s, k));
    assert w.phase.created[i] == w.vs[i].(status := w.phase.created[i].status);
    assert FilteredAt(s.jobs, k, i, s.jobs[j].user, s.jobs[j].vs[a].hash);
    assert RecordedRight(s.jobs, s.jobs[j].user, s.jobs[j].vs[a].hash, SeenOf(s, j));
    assert Entry(s.jobs, k, i);
    assert s.jobs[j].feed == w.feed ==> Same(s.jobs, k, i, j, a);
  }

  lemma OKStays(j: Job, seen: Seen, more: Seen)
    requires JobOK(j, seen) && forall h :: h in seen ==> h in more
    ensures JobOK(j, more)
  {
    if j.phase.Sorted? {
      assert forall a :: 0 <= a < |j.vs| ==> AsCreated(j.phase.created[a], j.vs[a], seen);
    }
  }

  lemma StepJobs(s: State, step: Step)
    requires CleanInv(s) && Enabled(s, step) && !step.Outside?
    ensures JobsOK(Do(s, step))
  {
    var t := Do(s, step);
    forall j | 0 <= j < |t.jobs| ensures JobOK(t.jobs[j], SeenOf(t, j)) {
      assert JobOK(s.jobs[j], SeenOf(s, j));
      if j == step.k {
        assert JobOK(t.jobs[j], SeenOf(s, j)) by { MoverOK(s, step); }
      }
      forall h | h in SeenOf(s, j) ensures h in SeenOf(t, j) { StepRecords(s, step, s.jobs[j].user, h); }
      OKStays(t.jobs[j], SeenOf(s, j), SeenOf(t, j));
    }
  }

  lemma MoverOK(s: State, step: Step)
    requires CleanInv(s) && Enabled(s, step) && !step.Outside?
    ensures JobOK(Do(s, step).jobs[step.k], SeenOf(s, step.k))
  {
    var j := s.jobs[step.k];
    assert JobOK(j, SeenOf(s, step.k));
    match step
    case ReadRows(k, answer) => ReadAllCreate(s, k, answer);
    case Sort(k) =>
      assert forall a :: 0 <= a < |j.vs| ==> Entry(s.jobs, k, a);
      SortedOK(j, SeenOf(s, k));
    case Screen(k) => ScreenedOnlyStatus(SeenOf(s, k), j);
    case _ =>
  }

  lemma ScreenCounts(s: State, k: nat)
    requires CleanInv(s) && Enabled(s, Screen(k))
    ensures CountsOK(Do(s, Screen(k)))
  {
    var f := ScreenOf(s, k);
    ScreenAccounts(s, k);
    FilterPairs(s.seen, s.jobs[k].user, s.jobs[k].phase.created, |s.jobs[k].phase.created|);
    GainedChanges(s.jobs, k, Do(s, Screen(k)).jobs[k]);
  }

  lemma StepCounts(s: State, step: Step)
    requires CleanInv(s) && Enabled(s, step) && !step.Outside?
    ensures CountsOK(Do(s, step))
  {
    if step.Screen? {
      ScreenCounts(s, step.k);
    } else {
      StepWork(s, step);
      GainedChanges(s.jobs, step.k, Do(s, step).jobs[step.k]);
    }
  }

  lemma StepClean(s: State, step: Step)
    requires CleanInv(s) && Enabled(s, step) && !step.Outside?
    ensures CleanInv(Do(s, step))
  {
    StepWork(s, step);
    CleanStays(s.jobs, Do(s, step).jobs);
    if step.Screen? { ScreenSeen(s, step.k); } else { SeenStays(s, Do(s, step)); }
    StepRows(s, step);
    StepJobs(s, step);
    StepCounts(s, step);
  }

  lemma {:induction false} NoneGained(jobs: seq<Job>)
    requires forall j :: 0 <= j < |jobs| ==> jobs[j].phase.Idle?
    ensures Gained(jobs) == 0
  {
    if jobs != [] { NoneGained(jobs[..|jobs| - 1]); }
  }

  lemma CleanStart(s: State)
    requires Initial(s) && CleanBatch(s.jobs) && AllNew(s)
    ensures CleanInv(s)
  {
    assert forall j :: 0 <= j < |s.jobs| ==> StartsIdle(s.jobs[j]);
    NoneGained(s.jobs);
    assert DedupOrder.Pairs(s.seen) == {};
  }

  lemma {:induction false} RunKeepsClean(s: State, steps: seq<Step>)
    requires CleanInv(s) && IsRun(s, steps) && NothingOutside(steps)
    ensures CleanInv(After(s, steps)) && SameWork(s.jobs, After(s, steps).jobs)
    decreases |steps|
  {
    if steps != [] {
      StepClean(s, steps[0]);
      StepWork(s, steps[0]);
      RunKeepsClean(Do(s, steps[0]), steps[1..]);
    }
  }

  // ---- the totals ----

  ghost predicate AllFiltered(jobs: seq<Job>) { forall j :: 0 <= j < |jobs| ==> PastFilter(jobs[j].phase) }

  lemma {:induction false} AllGained(jobs: seq<Job>)
    requires AllFiltered(jobs)
    ensures Gained(jobs) == EntryCount(jobs) - DedupSum(jobs)
  {
    if jobs != [] { AllGained(jobs[..|jobs| - 1]); }
  }

  lemma AllRecorded(s: State)
    requires SeenAreFiltered(s) && AllFiltered(s.jobs)
    ensures DedupOrder.Pairs(s.seen) == BatchPairs(s.jobs)
  {
    forall user, h ensures (user, h) in DedupOrder.Pairs(s.seen) <==> (user, h) in BatchPairs(s.jobs) {
      assert (user, h) in DedupOrder.Pairs(s.seen) <==> h in DedupOrder.SeenBy(s.seen, user);
      assert RecordedRight(s.jobs, user, h, DedupOrder.SeenBy(s.seen, user));
      if Filtered(s.jobs, user, h) {
        var j: nat, a: nat :| FilteredAt(s.jobs, j, a, user, h);
      }
      if (user, h) in BatchPairs(s.jobs) {
        var j, a :| 0 <= j < |s.jobs| && 0 <= a < |s.jobs[j].vs| && (user, h) == (s.jobs[j].user, s.jobs[j].vs[a].hash);
        assert FilteredAt(s.jobs, j, a, user, h);
      }
    }
  }

  lemma {:induction false} SameEntryCount(a: seq<Job>, b: seq<Job>)
    requires SameWork(a, b)
    ensures EntryCount(a) == EntryCount(b)
  {
    if a != [] { SameEntryCount(a[..|a| - 1], b[..|b| - 1]); }
  }

  lemma SameBatchPairs(a: seq<Job>, b: seq<Job>)
    requires SameWork(a, b)
    ensures BatchPairs(a) == BatchPairs(b)
  {
    assert forall j :: 0 <= j < |a| ==> a[j].vs == b[j].vs && a[j].user == b[j].user;
  }

  /**
   A clean batch of new entries, under every schedule: once all jobs are past the filter, `created`
   is the number of distinct (user, hash) pairs it brought, and the dedups of `Append` and of the
   filter together are all its other entries.
   */
  lemma CleanBatchCounts(s: State, steps: seq<Step>)
    requires Initial(s) && CleanBatch(s.jobs) && AllNew(s)
    requires IsRun(s, steps) && NothingOutside(steps) && AllFiltered(After(s, steps).jobs)
    ensures After(s, steps).created == |BatchPairs(s.jobs)|
    ensures DedupSum(After(s, steps).jobs) == EntryCount(s.jobs) - |BatchPairs(s.jobs)|
  {
    var t := After(s, steps);
    CleanStart(s);
    RunKeepsClean(s, steps);
    AllGained(t.jobs);
    AllRecorded(t);
    SameEntryCount(s.jobs, t.jobs);
    SameBatchPairs(s.jobs, t.jobs);
  }
}
