/**
 A whole batch of refreshes sharing one `DedupEntries` (internal/storage/entry.go,
 internal/storage/dedup.go, internal/worker/pool.go). Each refresh reads, classifies, filters and
 commits or rolls back; the steps of different refreshes interleave freely, and the rest of the
 program may change the table at any time.
 */
module BatchDedup {
  import opened RefreshSpec
  import opened EntryRows
  import U = UpsertSpec
  import DedupOrder

  datatype Phase =
    | Idle
    | Read(answer: seq<Stored>)                                   // publishedEntries returned
    | Sorted(created: seq<EntryV>, updated: seq<EntryV>)          // Append returned
    | Screened(created: seq<EntryV>, updated: seq<EntryV>)        // Filter returned
    | Committed(created: seq<EntryV>)
    | RolledBack(screened: bool, created: seq<EntryV>)

  /** One refresh; `vs` are its entries as `RefreshFeed` stamped them, `dedups` is its `FeedRefreshed.Dedups`. */
  datatype Job = Job(user: Id, feed: Id, vs: seq<EntryV>, force: bool, dedups: nat, phase: Phase)

  /** `seen` and `created` are the fields of the shared `DedupEntries`. */
  datatype State = State(rows: Rows, next: Id, seen: map<Id, Seen>, created: nat, jobs: seq<Job>)

  datatype Step =
    | ReadRows(k: nat, answer: seq<Stored>)
    | Sort(k: nat)
    | Screen(k: nat)
    | Commit(k: nat, now: Time)
    | Rollback(k: nat)
    | Outside(rows: Rows, next: Id)

  ghost predicate Initial(s: State) {
    && s.seen == map[] && s.created == 0
    && forall k :: 0 <= k < |s.jobs| ==> StartsIdle(s.jobs[k])
  }

  ghost predicate StartsIdle(j: Job) { j.phase.Idle? && j.dedups == 0 && U.OfFeed(j.vs, j.user, j.feed) }

  function RefreshOf(j: Job, answer: seq<Stored>): U.Refresh { U.Refresh(j.user, j.feed, j.vs, j.force, answer) }

  ghost predicate Enabled(s: State, step: Step) {
    match step
    case ReadRows(k, answer) =>
      k < |s.jobs| && s.jobs[k].phase.Idle? && IsPublished(s.rows, s.jobs[k].user, U.HashesOf(s.jobs[k].vs), answer)
    case Sort(k) => k < |s.jobs| && s.jobs[k].phase.Read?
    case Screen(k) => k < |s.jobs| && s.jobs[k].phase.Sorted?
    case Commit(k, now) =>
      && k < |s.jobs| && s.jobs[k].phase.Screened? && AllHit(s.rows, s.jobs[k].phase.updated)
      && CanInsert(AfterUpdates(s, k, now), s.jobs[k].phase.created, |s.jobs[k].phase.created|)
    case Rollback(k) => k < |s.jobs| && (s.jobs[k].phase.Read? || s.jobs[k].phase.Sorted? || s.jobs[k].phase.Screened?)
    case Outside(_, _) => true
  }

  function AfterUpdates(s: State, k: nat, now: Time): Rows
    requires k < |s.jobs| && s.jobs[k].phase.Screened?
  {
    UpdateTo(s.rows, s.jobs[k].phase.updated, now, |s.jobs[k].phase.updated|)
  }

  function Goto(s: State, k: nat, phase: Phase, dedups: nat): State
    requires k < |s.jobs|
  {
    s.(jobs := s.jobs[k := s.jobs[k].(phase := phase, dedups := s.jobs[k].dedups + dedups)])
  }

  /** The atomic filter of one refresh. */
  function ScreenOf(s: State, k: nat): Filtered
    requires k < |s.jobs| && s.jobs[k].phase.Sorted?
  {
    FilterAll(DedupOrder.SeenBy(s.seen, s.jobs[k].user), s.jobs[k].phase.created)
  }

  ghost function Do(s: State, step: Step): State
    requires Enabled(s, step)
  {
    match step
    case ReadRows(k, answer) => Goto(s, k, Phase.Read(answer), 0)
    case Sort(k) =>
      var r := RefreshOf(s.jobs[k], s.jobs[k].phase.answer);
      Goto(s, k, Sorted(U.Listed(RefreshSpec.Created, r), U.Listed(RefreshSpec.Updated, r)),
           DedupCount(U.Known(r), r.vs, r.force, |r.vs|))
    case Screen(k) =>
      var f := ScreenOf(s, k);
      Goto(s.(seen := s.seen[s.jobs[k].user := f.seen], created := s.created + f.created),
           k, Screened(f.entries, s.jobs[k].phase.updated), f.dedups)
    case Commit(k, now) =>
      var created := s.jobs[k].phase.created;
      Goto(s.(rows := InsertTo(AfterUpdates(s, k, now), created, s.next, now, |created|), next := s.next + |created|),
           k, Committed(created), 0)
    case Rollback(k) =>
      var phase := s.jobs[k].phase;
      Goto(s, k, RolledBack(phase.Screened?, if phase.Screened? then phase.created else []), 0)
    case Outside(rows, next) => s.(rows := rows, next := next)
  }

  // ---- what one call of the filter guarantees ----

  /** An entry the user will see as new. */
  predicate ShownNew(e: EntryV) { e.status.Unread? && !e.imported }

  /** How the entries `f` has let through so far relate to the map it started from and has now. */
  ghost predicate Recorded(seen: Seen, f: Filtered) {
    && (forall h :: h in seen ==> h in f.seen && f.seen[h] == seen[h])
    && (forall i :: 0 <= i < |f.entries| && ShownNew(f.entries[i]) ==>
          f.entries[i].hash in f.seen && f.seen[f.entries[i].hash] == f.entries[i].feedID)
    && (forall h :: h in f.seen && h !in seen ==> KeptAmong(f.entries, h, f.seen[h]))
  }

  ghost predicate KeptAmong(es: seq<EntryV>, h: Hash, feed: Id) {
    exists i :: 0 <= i < |es| && Keeps(es[i], h, feed)
  }

  lemma FilterOneRecords(seen: Seen, f: Filtered, e: EntryV)
    requires Recorded(seen, f)
    ensures Recorded(seen, FilterOne(f, e))
  {
    var g := FilterOne(f, e);
    assert forall i :: 0 <= i < |f.entries| ==> g.entries[i] == f.entries[i];
    assert g.entries[|f.entries|] == if IsDuplicate(f.seen, e) then KeepImported(e, RefreshSpec.Read) else e;
    forall h | h in g.seen && h !in seen ensures KeptAmong(g.entries, h, g.seen[h]) {
      if h in f.seen {
        assert KeptAmong(f.entries, h, f.seen[h]);
        var i :| 0 <= i < |f.entries| && Keeps(f.entries[i], h, f.seen[h]);
        assert Keeps(g.entries[i], h, g.seen[h]);
      } else {
        assert Keeps(g.entries[|f.entries|], h, g.seen[h]);
      }
    }
  }

  lemma {:induction false} FilterFacts(seen: Seen, es: seq<EntryV>, k: nat)
    requires k <= |es|
    ensures Recorded(seen, FilterTo(seen, es, k))
  {
    if k > 0 {
      FilterFacts(seen, es, k - 1);
      FilterOneRecords(seen, FilterTo(seen, es, k - 1), es[k - 1]);
    }
  }

  lemma {:induction false} UnreadAreRecorded(seen: Seen, es: seq<EntryV>, k: nat, i: nat)
    requires i < k <= |es| && es[i].status.Unread?
    ensures es[i].hash in FilterTo(seen, es, k).seen
  {
    if i < k - 1 { UnreadAreRecorded(seen, es, k - 1, i); }
  }

  /** `e` is an unread copy of hash `h` from feed `feed`. */
  predicate Keeps(e: EntryV, h: Hash, feed: Id) { e.status.Unread? && e.hash == h && e.feedID == feed }

  lemma PairAdded(seen: map<Id, Seen>, user: Id, f: Seen, h: Hash, feed: Id)
    requires h !in f
    ensures |DedupOrder.Pairs(seen[user := f[h := feed]])| == |DedupOrder.Pairs(seen[user := f])| + 1
  {
    var before, after := DedupOrder.Pairs(seen[user := f]), DedupOrder.Pairs(seen[user := f[h := feed]]);
    assert (user, h) !in before;
    forall u, g ensures (u, g) in after <==> (u, g) in before + {(user, h)} {
      assert (u, g) in after <==> g in DedupOrder.SeenBy(seen[user := f[h := feed]], u);
      assert (u, g) in before <==> g in DedupOrder.SeenBy(seen[user := f], u);
    }
    assert after == before + {(user, h)};
  }

  /** `created` counts the pairs a call adds. */
  lemma {:induction false} FilterPairs(seen: map<Id, Seen>, user: Id, es: seq<EntryV>, k: nat)
    requires k <= |es|
    ensures var f := FilterTo(DedupOrder.SeenBy(seen, user), es, k);
      |DedupOrder.Pairs(seen[user := f.seen])| == |DedupOrder.Pairs(seen)| + f.created
  {
    if k == 0 {
      SamePairs(seen, user);
    } else {
      FilterPairs(seen, user, es, k - 1);
      var f, e := FilterTo(DedupOrder.SeenBy(seen, user), es, k - 1), es[k - 1];
      if IsFirst(f.seen, e) { PairAdded(seen, user, f.seen, e.hash, e.feedID); }
    }
  }

  lemma SamePairs(seen: map<Id, Seen>, user: Id)
    ensures DedupOrder.Pairs(seen[user := DedupOrder.SeenBy(seen, user)]) == DedupOrder.Pairs(seen)
  {
  }

  // ---- the invariants over every interleaving ----

  predicate PastFilter(p: Phase) { p.Screened? || p.Committed? || (p.RolledBack? && p.screened) }

  /** Whatever is left unread belongs to the feed the map records. */
  ghost predicate OneFeed(s: State) {
    forall k, i :: 0 <= k < |s.jobs| && PastFilter(s.jobs[k].phase) && 0 <= i < |s.jobs[k].phase.created| ==>
      var e := s.jobs[k].phase.created[i];
      ShownNew(e) ==>
        && e.hash in DedupOrder.SeenBy(s.seen, s.jobs[k].user)
        && DedupOrder.SeenBy(s.seen, s.jobs[k].user)[e.hash] == e.feedID
  }

  ghost predicate HasKeeper(s: State, user: Id, h: Hash, feed: Id) {
    exists k, i :: 0 <= k < |s.jobs| && s.jobs[k].user == user && PastFilter(s.jobs[k].phase)
      && 0 <= i < |s.jobs[k].phase.created| && Keeps(s.jobs[k].phase.created[i], h, feed)
  }

  /** Whatever the map records is left unread in that feed's list. */
  ghost predicate Kept(s: State) {
    forall user, h :: h in DedupOrder.SeenBy(s.seen, user) ==> HasKeeper(s, user, h, DedupOrder.SeenBy(s.seen, user)[h])
  }

  lemma StepOneFeed(s: State, step: Step)
    requires OneFeed(s) && Enabled(s, step)
    ensures OneFeed(Do(s, step))
  {
    if step.Screen? {
      var k := step.k;
      FilterFacts(DedupOrder.SeenBy(s.seen, s.jobs[k].user), s.jobs[k].phase.created, |s.jobs[k].phase.created|);
    }
  }

  lemma StepKept(s: State, step: Step)
    requires Kept(s) && Enabled(s, step)
    ensures Kept(Do(s, step))
  {
    var t := Do(s, step);
    forall user, h | h in DedupOrder.SeenBy(t.seen, user)
      ensures HasKeeper(t, user, h, DedupOrder.SeenBy(t.seen, user)[h]) {
      if step.Screen? {
        var k := step.k;
        FilterFacts(DedupOrder.SeenBy(s.seen, s.jobs[k].user), s.jobs[k].phase.created, |s.jobs[k].phase.created|);
      }
      if h in DedupOrder.SeenBy(s.seen, user) {
        var feed := DedupOrder.SeenBy(s.seen, user)[h];
        assert HasKeeper(s, user, h, feed);
        var k, i :| 0 <= k < |s.jobs| && s.jobs[k].user == user && PastFilter(s.jobs[k].phase)
          && 0 <= i < |s.jobs[k].phase.created| && Keeps(s.jobs[k].phase.created[i], h, feed);
        assert PastFilter(t.jobs[k].phase) && t.jobs[k].phase.created == s.jobs[k].phase.created;
      } else {
        var k := step.k;
        var f := ScreenOf(s, k);
        assert KeptAmong(f.entries, h, f.seen[h]);
        var i :| 0 <= i < |f.entries| && Keeps(f.entries[i], h, f.seen[h]);
        assert t.jobs[k].phase.created == f.entries;
      }
    }
  }

  /** `created` counts the entries of all per-user maps. */
  ghost predicate CreatedIsPairs(s: State) { s.created == |DedupOrder.Pairs(s.seen)| }

  lemma StepCreated(s: State, step: Step)
    requires CreatedIsPairs(s) && Enabled(s, step)
    ensures CreatedIsPairs(Do(s, step))
  {
    if step.Screen? {
      var k := step.k;
      FilterPairs(s.seen, s.jobs[k].user, s.jobs[k].phase.created, |s.jobs[k].phase.created|);
    }
  }

  // ---- runs ----

  ghost predicate IsRun(s: State, steps: seq<Step>)
    decreases |steps|
  {
    steps == [] || (Enabled(s, steps[0]) && IsRun(Do(s, steps[0]), steps[1..]))
  }

  ghost function After(s: State, steps: seq<Step>): State
    requires IsRun(s, steps)
    decreases |steps|
  {
    if steps == [] then s else After(Do(s, steps[0]), steps[1..])
  }

  /** Nothing but the batch changes the table. */
  ghost predicate NothingOutside(steps: seq<Step>) { forall i :: 0 <= i < |steps| ==> !steps[i].Outside? }

  lemma {:induction false} RunKeeps(s: State, steps: seq<Step>)
    requires OneFeed(s) && Kept(s) && CreatedIsPairs(s) && IsRun(s, steps)
    ensures OneFeed(After(s, steps)) && Kept(After(s, steps)) && CreatedIsPairs(After(s, steps))
    decreases |steps|
  {
    if steps != [] {
      StepOneFeed(s, steps[0]);
      StepKept(s, steps[0]);
      StepCreated(s, steps[0]);
      RunKeeps(Do(s, steps[0]), steps[1..]);
    }
  }

  /** In every run `created` is the number of (user, hash) pairs recorded so far. */
  lemma CreatedCountsRecorded(s: State, steps: seq<Step>)
    requires Initial(s) && IsRun(s, steps)
    ensures After(s, steps).created == |DedupOrder.Pairs(After(s, steps).seen)|
  {
    assert DedupOrder.Pairs(s.seen) == {};
    RunKeeps(s, steps);
  }

  predicate CreatedEntry(s: State, k: nat, i: nat) {
    k < |s.jobs| && PastFilter(s.jobs[k].phase) && i < |s.jobs[k].phase.created|
  }

  /** Two created entries of one user, with one hash, both shown as new. */
  predicate SameArticle(t: State, j: nat, a: nat, k: nat, b: nat)
    requires CreatedEntry(t, j, a) && CreatedEntry(t, k, b)
  {
    && t.jobs[j].user == t.jobs[k].user
    && t.jobs[j].phase.created[a].hash == t.jobs[k].phase.created[b].hash
    && ShownNew(t.jobs[j].phase.created[a]) && ShownNew(t.jobs[k].phase.created[b])
  }

  /**
   In every interleaving, all non-imported entries of one user and hash that any refresh of the
   batch leaves unread belong to a single feed: the one recorded in the map.
   */
  lemma UnreadCopiesShareAFeed(s: State, steps: seq<Step>, j: nat, a: nat, k: nat, b: nat)
    requires Initial(s) && IsRun(s, steps)
    requires var t := After(s, steps); CreatedEntry(t, j, a) && CreatedEntry(t, k, b)
    requires SameArticle(After(s, steps), j, a, k, b)
    ensures var t := After(s, steps);
      var e, e' := t.jobs[j].phase.created[a], t.jobs[k].phase.created[b];
      && e.feedID == e'.feedID
      && e.hash in DedupOrder.SeenBy(t.seen, t.jobs[j].user)
      && DedupOrder.SeenBy(t.seen, t.jobs[j].user)[e.hash] == e.feedID
  {
    RunKeeps(s, steps);
  }

  /** And no hash the filter saw unread is silenced everywhere: the recorded feed keeps a copy unread. */
  lemma RecordedCopyStaysUnread(s: State, steps: seq<Step>, user: Id, h: Hash)
    requires Initial(s) && IsRun(s, steps) && h in DedupOrder.SeenBy(After(s, steps).seen, user)
    ensures HasKeeper(After(s, steps), user, h, DedupOrder.SeenBy(After(s, steps).seen, user)[h])
  {
    RunKeeps(s, steps);
  }

  /** Nothing passes the filter unread without being recorded. */
  lemma FilterRecords(s: State, k: nat, i: nat)
    requires Enabled(s, Screen(k)) && i < |s.jobs[k].phase.created| && s.jobs[k].phase.created[i].status.Unread?
    ensures s.jobs[k].phase.created[i].hash in DedupOrder.SeenBy(Do(s, Screen(k)).seen, s.jobs[k].user)
  {
    var es := s.jobs[k].phase.created;
    UnreadAreRecorded(DedupOrder.SeenBy(s.seen, s.jobs[k].user), es, |es|, i);
  }
}
