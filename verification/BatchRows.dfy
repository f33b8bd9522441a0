/**
 What a batch leaves in the entries table (internal/storage/entry.go, internal/storage/dedup.go):
 the copy of a hash that the filter keeps unread becomes an unread row exactly when its refresh
 commits.
 */
module BatchRows {
  import opened BatchDedup
  import opened EntryRows
  import opened RefreshSpec
  import DedupOrder
  import U = UpsertSpec

  /** The jobs of a batch are different feeds. */
  ghost predicate FeedsDiffer(jobs: seq<Job>) {
    forall j, k :: 0 <= j < k < |jobs| ==> jobs[j].feed != jobs[k].feed
  }

  // ---- every list of a job holds entries of its feed ----

  ghost predicate ListsAreOwn(j: Job) {
    && U.OfFeed(j.vs, j.user, j.feed)
    && match j.phase
       case Sorted(created, updated) => U.OfFeed(created, j.user, j.feed) && U.OfFeed(updated, j.user, j.feed)
       case Screened(created, updated) => U.OfFeed(created, j.user, j.feed) && U.OfFeed(updated, j.user, j.feed)
       case Committed(created) => U.OfFeed(created, j.user, j.feed)
       case RolledBack(_, created) => U.OfFeed(created, j.user, j.feed)
       case _ => true
  }

  ghost predicate AllOwn(s: State) { forall k :: 0 <= k < |s.jobs| ==> ListsAreOwn(s.jobs[k]) }

  lemma ListedIsOwn(t: Target, r: U.Refresh)
    requires U.OfFeed(r.vs, r.user, r.feed)
    ensures U.OfFeed(U.Listed(t, r), r.user, r.feed)
  {
    forall j | 0 <= j < |U.Listed(t, r)|
      ensures U.Listed(t, r)[j].userID == r.user && U.Listed(t, r)[j].feedID == r.feed
    {
      var i := U.ListedAt(t, r, j);
    }
  }

  lemma ScreenedIsOwn(seen: Seen, cs: seq<EntryV>, user: Id, feed: Id)
    requires U.OfFeed(cs, user, feed)
    ensures U.OfFeed(FilterAll(seen, cs).entries, user, feed)
  {
    U.FilterStatusOnly(seen, cs, |cs|);
    assert forall j :: 0 <= j < |cs| ==>
      FilterAll(seen, cs).entries[j] == cs[j].(status := FilterAll(seen, cs).entries[j].status);
  }

  lemma StepOwn(s: State, step: Step)
    requires AllOwn(s) && Enabled(s, step)
    ensures AllOwn(Do(s, step))
  {
    if step.Sort? {
      var r := RefreshOf(s.jobs[step.k], s.jobs[step.k].phase.answer);
      ListedIsOwn(Target.Created, r);
      ListedIsOwn(Target.Updated, r);
    } else if step.Screen? {
      var j := s.jobs[step.k];
      ScreenedIsOwn(DedupOrder.SeenBy(s.seen, j.user), j.phase.created, j.user, j.feed);
    }
  }

  // ---- rows and committed jobs ----

  /** Entry `i` of the committed job `k` brought the key. */
  ghost predicate InsertedBy(s: State, key: Key, k: nat, i: nat) {
    k < |s.jobs| && s.jobs[k].phase.Committed? && i < |s.jobs[k].phase.created|
      && KeyOf(s.jobs[k].phase.created[i]) == key
  }

  ghost predicate Inserted(s: State, key: Key) { exists k: nat, i: nat :: InsertedBy(s, key, k, i) }

  /** The row of the entry, with its status. */
  ghost predicate HasRow(rows: Rows, e: EntryV) { KeyOf(e) in rows && rows[KeyOf(e)].status == e.status }

  ghost predicate CommittedHaveRows(s: State) {
    forall k, i :: 0 <= k < |s.jobs| && s.jobs[k].phase.Committed? && 0 <= i < |s.jobs[k].phase.created| ==>
      HasRow(s.rows, s.jobs[k].phase.created[i])
  }

  /** Every row that was not there at first was inserted by a committed job. */
  ghost predicate NewAreInserted(rows0: Rows, s: State) {
    forall key :: key in s.rows && key !in rows0 ==> Inserted(s, key)
  }

  lemma CommitKeepsRows(s: State, k: nat, now: Time, e: EntryV)
    requires Enabled(s, Commit(k, now)) && AllOwn(s) && HasRow(s.rows, e) && e.feedID != s.jobs[k].feed
    ensures HasRow(Do(s, Commit(k, now)).rows, e)
  {
    var j := s.jobs[k];
    UpdateOthers(s.rows, j.phase.updated, now, |j.phase.updated|, KeyOf(e));
    InsertMeaning(AfterUpdates(s, k, now), j.phase.created, s.next, now, |j.phase.created|);
  }

  lemma CommitHasRows(s: State, k: nat, now: Time, i: nat)
    requires Enabled(s, Commit(k, now)) && i < |s.jobs[k].phase.created|
    ensures HasRow(Do(s, Commit(k, now)).rows, s.jobs[k].phase.created[i])
  {
    var j := s.jobs[k];
    InsertMeaning(AfterUpdates(s, k, now), j.phase.created, s.next, now, |j.phase.created|);
  }

  lemma StepCommittedHaveRows(s: State, step: Step)
    requires AllOwn(s) && FeedsDiffer(s.jobs) && CommittedHaveRows(s) && Enabled(s, step) && !step.Outside?
    ensures CommittedHaveRows(Do(s, step))
  {
    var t := Do(s, step);
    forall k, i | 0 <= k < |t.jobs| && t.jobs[k].phase.Committed? && 0 <= i < |t.jobs[k].phase.created|
      ensures HasRow(t.rows, t.jobs[k].phase.created[i])
    {
      if step.Commit? && step.k == k {
        CommitHasRows(s, k, step.now, i);
      } else {
        assert t.jobs[k] == s.jobs[k] && HasRow(s.rows, s.jobs[k].phase.created[i]);
        if step.Commit? {
          assert ListsAreOwn(s.jobs[k]);
          CommitKeepsRows(s, step.k, step.now, s.jobs[k].phase.created[i]);
        }
      }
    }
  }

  lemma StepNewAreInserted(rows0: Rows, s: State, step: Step)
    requires NewAreInserted(rows0, s) && Enabled(s, step) && !step.Outside?
    ensures NewAreInserted(rows0, Do(s, step))
  {
    var t := Do(s, step);
    forall key | key in t.rows && key !in rows0 ensures Inserted(t, key) {
      if key in s.rows {
        var k: nat, i: nat :| InsertedBy(s, key, k, i);
        assert InsertedBy(t, key, k, i);
      } else {
        var k := step.k;
        InsertKeys(AfterUpdates(s, k, step.now), s.jobs[k].phase.created, s.next, step.now, |s.jobs[k].phase.created|,
          key);
        var i :| 0 <= i < |s.jobs[k].phase.created| && KeyOf(s.jobs[k].phase.created[i]) == key;
        assert InsertedBy(t, key, k, i);
      }
    }
  }

  // ---- runs ----

  ghost predicate RowsInv(rows0: Rows, s: State) {
    AllOwn(s) && FeedsDiffer(s.jobs) && CommittedHaveRows(s) && NewAreInserted(rows0, s)
  }

  lemma {:induction false} RunKeepsRows(rows0: Rows, s: State, steps: seq<Step>)
    requires RowsInv(rows0, s) && IsRun(s, steps) && NothingOutside(steps)
    ensures RowsInv(rows0, After(s, steps))
    decreases |steps|
  {
    if steps != [] {
      StepOwn(s, steps[0]);
      StepCommittedHaveRows(s, steps[0]);
      StepNewAreInserted(rows0, s, steps[0]);
      RunKeepsRows(rows0, Do(s, steps[0]), steps[1..]);
    }
  }

  lemma RowsAtEnd(s: State, steps: seq<Step>)
    requires Initial(s) && IsRun(s, steps) && NothingOutside(steps) && FeedsDiffer(s.jobs)
    ensures RowsInv(s.rows, After(s, steps)) && OneFeed(After(s, steps)) && Kept(After(s, steps))
  {
    RunKeepsRows(s.rows, s, steps);
    RunKeeps(s, steps);
  }

  /** No two rows have one id, and the next id is free. */
  ghost predicate IdsOK(rows: Rows, next: Id) {
    && (forall key :: key in rows ==> rows[key].id < next)
    && forall a, b :: a in rows && b in rows && rows[a].id == rows[b].id ==> a == b
  }

  lemma {:induction false} UpdateKeepsIds(rows: Rows, es: seq<EntryV>, now: Time, k: nat)
    requires k <= |es|
    ensures forall key :: key in rows ==> UpdateTo(rows, es, now, k)[key].id == rows[key].id
  {
    if k > 0 { UpdateKeepsIds(rows, es, now, k - 1); }
  }

  lemma {:induction false} InsertGivesIds(rows: Rows, es: seq<EntryV>, next: Id, now: Time, k: nat)
    requires IdsOK(rows, next) && k <= |es|
    ensures IdsOK(InsertTo(rows, es, next, now, k), next + k)
  {
    if k > 0 { InsertGivesIds(rows, es, next, now, k - 1); }
  }

  /** However the refreshes of a batch interleave, every row has an id of its own. */
  lemma {:induction false} RunKeepsIds(s: State, steps: seq<Step>)
    requires IdsOK(s.rows, s.next) && IsRun(s, steps) && NothingOutside(steps)
    ensures IdsOK(After(s, steps).rows, After(s, steps).next)
    decreases |steps|
  {
    if steps != [] {
      if steps[0].Commit? {
        var k, now := steps[0].k, steps[0].now;
        var phase := s.jobs[k].phase;
        UpdateKeepsIds(s.rows, phase.updated, now, |phase.updated|);
        InsertGivesIds(AfterUpdates(s, k, now), phase.created, s.next, now, |phase.created|);
      }
      RunKeepsIds(Do(s, steps[0]), steps[1..]);
    }
  }

  predicate UnreadRow(rows: Rows, key: Key) { key in rows && rows[key].status.Unread? }

  /**
   A recorded hash belongs to one job of the batch, and it ends as an unread row of that job's feed
   if and only if the job committed: the map is not rolled back with the transaction.
   */
  lemma RecordedRowIffCommitted(s: State, steps: seq<Step>, user: Id, h: Hash) returns (k: nat)
    requires Initial(s) && IsRun(s, steps) && NothingOutside(steps) && FeedsDiffer(s.jobs)
    requires h in DedupOrder.SeenBy(After(s, steps).seen, user)
    requires Key(DedupOrder.SeenBy(After(s, steps).seen, user)[h], h) !in s.rows
    ensures var t := After(s, steps); var key := Key(DedupOrder.SeenBy(t.seen, user)[h], h);
      && k < |t.jobs| && t.jobs[k].user == user && t.jobs[k].feed == key.feed
      && (UnreadRow(t.rows, key) <==> t.jobs[k].phase.Committed?)
      && (key in t.rows <==> t.jobs[k].phase.Committed?)
  {
    var t := After(s, steps);
    var feed := DedupOrder.SeenBy(t.seen, user)[h];
    RowsAtEnd(s, steps);
    assert HasKeeper(t, user, h, feed);
    var j, i :| 0 <= j < |t.jobs| && t.jobs[j].user == user && PastFilter(t.jobs[j].phase)
      && 0 <= i < |t.jobs[j].phase.created| && Keeps(t.jobs[j].phase.created[i], h, feed);
    k := j;
    assert ListsAreOwn(t.jobs[k]);
    KeeperDecides(s.rows, t, k, i);
  }

  lemma KeeperDecides(rows0: Rows, t: State, k: nat, i: nat)
    requires RowsInv(rows0, t) && k < |t.jobs| && PastFilter(t.jobs[k].phase) && i < |t.jobs[k].phase.created|
    requires t.jobs[k].phase.created[i].status.Unread? && KeyOf(t.jobs[k].phase.created[i]) !in rows0
    ensures var key := KeyOf(t.jobs[k].phase.created[i]);
      && (UnreadRow(t.rows, key) <==> t.jobs[k].phase.Committed?)
      && (key in t.rows <==> t.jobs[k].phase.Committed?)
  {
    var e := t.jobs[k].phase.created[i];
    assert ListsAreOwn(t.jobs[k]);
    if t.jobs[k].phase.Committed? {
      assert HasRow(t.rows, e);
    }
    if KeyOf(e) in t.rows {
      assert Inserted(t, KeyOf(e));
      var m: nat, n: nat :| InsertedBy(t, KeyOf(e), m, n);
      assert ListsAreOwn(t.jobs[m]);
      assert m == k;
    }
  }

  /** An unread row the batch inserted from a non-imported entry belongs to the recorded feed. */
  lemma UnreadRowIsRecorded(s: State, steps: seq<Step>, key: Key) returns (k: nat, i: nat)
    requires Initial(s) && IsRun(s, steps) && NothingOutside(steps) && FeedsDiffer(s.jobs)
    requires UnreadRow(After(s, steps).rows, key) && key !in s.rows
    ensures var t := After(s, steps);
      && InsertedBy(t, key, k, i)
      && var e, seen := t.jobs[k].phase.created[i], DedupOrder.SeenBy(t.seen, t.jobs[k].user);
         !e.imported ==> key.hash in seen && seen[key.hash] == key.feed
  {
    var t := After(s, steps);
    RowsAtEnd(s, steps);
    assert Inserted(t, key);
    var m: nat, n: nat :| InsertedBy(t, key, m, n);
    k, i := m, n;
    assert HasRow(t.rows, t.jobs[k].phase.created[i]);
  }

  /** So of one user and hash the batch inserts at most one unread row from non-imported entries. */
  lemma OneUnreadRow(s: State, steps: seq<Step>, a: Key, j: nat, m: nat, b: Key, k: nat, n: nat)
    requires Initial(s) && IsRun(s, steps) && NothingOutside(steps) && FeedsDiffer(s.jobs)
    requires UnreadInserted(s, After(s, steps), a, j, m) && UnreadInserted(s, After(s, steps), b, k, n)
    requires a.hash == b.hash && After(s, steps).jobs[j].user == After(s, steps).jobs[k].user
    ensures a == b
  {
    var t := After(s, steps);
    RowsAtEnd(s, steps);
    assert HasRow(t.rows, t.jobs[j].phase.created[m]) && HasRow(t.rows, t.jobs[k].phase.created[n]);
  }

  /** Key `key` came in with the non-imported entry `i` of job `k` and is unread. */
  ghost predicate UnreadInserted(s: State, t: State, key: Key, k: nat, i: nat) {
    UnreadRow(t.rows, key) && key !in s.rows && InsertedBy(t, key, k, i) && !t.jobs[k].phase.created[i].imported
  }
}
