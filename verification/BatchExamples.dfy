/**
 Two batches of two feeds, each with one entry of the same hash: one in which a rollback loses the
 unread copy, and one whose counts depend on the schedule because the user has the hash already
 (internal/storage/entry.go, internal/storage/dedup.go).
 */
module BatchExamples {
  import opened BatchDedup
  import opened EntryRows
  import opened RefreshSpec
  import DedupOrder
  import U = UpsertSpec
  import C = BatchCounts

  // ---- a job with one entry, up to its filter ----

  function UpToScreen(k: nat, answer: seq<Stored>): seq<Step> { [ReadRows(k, answer), Sort(k), Screen(k)] }

  /** The state once job `k`, with `answer` read, has been filtered. */
  function ScreenedState(s: State, k: nat, answer: seq<Stored>): State
    requires k < |s.jobs|
  {
    var j, r := s.jobs[k], RefreshOf(s.jobs[k], answer);
    var f := FilterAll(DedupOrder.SeenBy(s.seen, j.user), U.Listed(Target.Created, r));
    Goto(s.(seen := s.seen[j.user := f.seen], created := s.created + f.created), k,
         Phase.Screened(f.entries, U.Listed(Target.Updated, r)),
           DedupCount(U.Known(r), r.vs, r.force, |r.vs|) + f.dedups)
  }

  lemma ScreenJob(s: State, k: nat, answer: seq<Stored>)
    requires Enabled(s, ReadRows(k, answer))
    ensures IsRun(s, UpToScreen(k, answer)) && After(s, UpToScreen(k, answer)) == ScreenedState(s, k, answer)
  {
    var s1 := Goto(s, k, Phase.Read(answer), 0);
    RunOne(s, ReadRows(k, answer));
    assert Do(s, ReadRows(k, answer)) == s1;
    SortThenScreen(s1, k);
    RunConcat(s, [ReadRows(k, answer)], [Sort(k), Screen(k)]);
    assert UpToScreen(k, answer) == [ReadRows(k, answer)] + [Sort(k), Screen(k)];
  }

  function SortedState(s: State, k: nat, answer: seq<Stored>): State
    requires k < |s.jobs|
  {
    var r := RefreshOf(s.jobs[k], answer);
    Goto(s, k, Phase.Sorted(U.Listed(Target.Created, r), U.Listed(Target.Updated, r)),
         DedupCount(U.Known(r), r.vs, r.force, |r.vs|))
  }

  lemma SortThenScreen(s: State, k: nat)
    requires k < |s.jobs| && s.jobs[k].phase.Read?
    ensures IsRun(s, [Sort(k), Screen(k)])
    ensures After(s, [Sort(k), Screen(k)]) == ScreenedState(s, k, s.jobs[k].phase.answer)
  {
    var answer := s.jobs[k].phase.answer;
    assert Do(s, Sort(k)) == SortedState(s, k, answer);
    ScreenSorted(s, k, answer);
    RunTwo(s, Sort(k), Screen(k));
  }

  lemma ScreenSorted(s: State, k: nat, answer: seq<Stored>)
    requires k < |s.jobs|
    ensures Enabled(SortedState(s, k, answer), Screen(k))
    ensures Do(SortedState(s, k, answer), Screen(k)) == ScreenedState(s, k, answer)
  {
  }

  lemma RunTwo(s: State, a: Step, b: Step)
    requires Enabled(s, a) && Enabled(Do(s, a), b)
    ensures IsRun(s, [a, b]) && After(s, [a, b]) == Do(Do(s, a), b)
  {
    RunOne(Do(s, a), b);
    assert [a, b][1..] == [b];
  }

  lemma RunOne(s: State, a: Step)
    requires Enabled(s, a)
    ensures IsRun(s, [a]) && After(s, [a]) == Do(s, a)
  {
    assert [a][1..] == [];
  }

  lemma {:induction false} RunConcat(s: State, a: seq<Step>, b: seq<Step>)
    requires IsRun(s, a) && IsRun(After(s, a), b)
    ensures IsRun(s, a + b) && After(s, a + b) == After(After(s, a), b)
    decreases |a|
  {
    if a == [] {
      assert a + b == b;
    } else {
      assert (a + b)[1..] == a[1..] + b;
      RunConcat(Do(s, a[0]), a[1..], b);
    }
  }

  function KnownOf(answer: seq<Stored>): map<Hash, Stored>
    requires |answer| <= 1
  {
    if answer == [] then map[] else map[answer[0].hash := answer[0]]
  }

  lemma OneKnown(feed: Id, answer: seq<Stored>)
    requires |answer| <= 1
    ensures StoredBy(feed, answer) == KnownOf(answer)
  {
    if answer != [] { assert StoredBy(feed, answer[..0]) == map[]; }
  }

  lemma OneListed(r: U.Refresh, e: EntryV, t: Target)
    requires r.vs == [e]
    ensures U.Listed(t, r) ==
      if Goes(t, ClassOf(U.Known(r), e, r.force)) then [Appended(U.Known(r), e, r.force)] else []
    ensures DedupCount(U.Known(r), r.vs, r.force, 1) == if ClassOf(U.Known(r), e, r.force).CreateRead? then 1 else 0
  {
    var ws, known := U.AppendedAll(r), U.Known(r);
    assert Chosen(t, ws, r.vs, known, r.force, 0) == [];
    assert U.Listed(t, r) == Chosen(t, ws, r.vs, known, r.force, 1);
    assert DedupCount(known, r.vs, r.force, 0) == 0;
  }

  lemma OneFiltered(seen: Seen, e: EntryV)
    ensures FilterAll(seen, [e]) == FilterOne(Filtered(seen, [], 0, 0), e)
    ensures FilterAll(seen, []) == Filtered(seen, [], 0, 0)
  {
    assert FilterTo(seen, [e], 0) == Filtered(seen, [], 0, 0);
  }

  /** Job `k` has one unread entry, and at most one stored row was read for it. */
  ghost predicate OneEntry(s: State, k: nat, answer: seq<Stored>, e: EntryV) {
    k < |s.jobs| && s.jobs[k].vs == [e] && !s.jobs[k].force && |answer| <= 1 && ShownNew(e)
  }

  /** An entry that is created as it is. */
  lemma CreatedOne(s: State, k: nat, answer: seq<Stored>, e: EntryV)
    requires OneEntry(s, k, answer, e)
    requires ClassOf(KnownOf(answer), e, false).Create?
    ensures var seen := DedupOrder.SeenBy(s.seen, s.jobs[k].user); var f := FilterOne(Filtered(seen, [], 0, 0), e);
      ScreenedState(s, k, answer) ==
        Goto(s.(seen := s.seen[s.jobs[k].user := f.seen], created := s.created + f.created), k,
                                          Phase.Screened(f.entries, []), f.dedups)
  {
    var r := RefreshOf(s.jobs[k], answer);
    OneKnown(r.feed, answer);
    OneListed(r, e, Target.Created);
    OneListed(r, e, Target.Updated);
    OneFiltered(DedupOrder.SeenBy(s.seen, s.jobs[k].user), e);
  }

  /** An entry that another feed has already. */
  lemma CreatedReadOne(s: State, k: nat, answer: seq<Stored>, e: EntryV)
    requires OneEntry(s, k, answer, e)
    requires ClassOf(KnownOf(answer), e, false).CreateRead? && s.jobs[k].user in s.seen
    ensures ScreenedState(s, k, answer) == Goto(s, k, Phase.Screened([e.(status := Status.Read)], []), 1)
  {
    var r := RefreshOf(s.jobs[k], answer);
    OneKnown(r.feed, answer);
    OneListed(r, e, Target.Created);
    OneListed(r, e, Target.Updated);
    OneFiltered(s.seen[s.jobs[k].user], e.(status := Status.Read));
  }

  /** An entry the feed has in an older version. */
  lemma UpdatedOne(s: State, k: nat, answer: seq<Stored>, e: EntryV)
    requires OneEntry(s, k, answer, e)
    requires ClassOf(KnownOf(answer), e, false).Update?
    ensures var seen := DedupOrder.SeenBy(s.seen, s.jobs[k].user);
      ScreenedState(s, k, answer) == Goto(s.(seen := s.seen[s.jobs[k].user := seen]), k, Phase.Screened([], [e]), 0)
  {
    var r := RefreshOf(s.jobs[k], answer);
    OneKnown(r.feed, answer);
    OneListed(r, e, Target.Created);
    OneListed(r, e, Target.Updated);
    OneFiltered(DedupOrder.SeenBy(s.seen, s.jobs[k].user), e);
  }

  // ---- two feeds with one entry of the same hash each ----

  ghost predicate TwoCopies(s: State, k: nat, m: nat, x: EntryV, y: EntryV) {
    && |s.jobs| == 2 && k < 2 && m < 2 && k != m && Initial(s)
    && s.jobs[k].vs == [x] && s.jobs[m].vs == [y] && !s.jobs[k].force && !s.jobs[m].force
    && s.jobs[k].user == s.jobs[m].user && s.jobs[k].feed != s.jobs[m].feed && x.hash == y.hash
    && ShownNew(x) && ShownNew(y)
  }

  lemma Copies(s: State, k: nat, m: nat, x: EntryV, y: EntryV)
    requires TwoCopies(s, k, m, x, y)
    ensures x.feedID == s.jobs[k].feed && x.userID == s.jobs[k].user
    ensures y.feedID == s.jobs[m].feed && y.userID == s.jobs[m].user
    ensures s.jobs[k].phase.Idle? && s.jobs[k].dedups == 0 && s.jobs[m].phase.Idle? && s.jobs[m].dedups == 0
    ensures s.seen == map[] && s.created == 0
  {
    assert StartsIdle(s.jobs[k]) && StartsIdle(s.jobs[m]);
    assert s.jobs[k].vs[0] == x && s.jobs[m].vs[0] == y;
  }

  /** The hash is read from at most one stored row. */
  lemma AnswerIs(rows: Rows, user: Id, e: EntryV, answer: seq<Stored>)
    requires
      || (rows == map[] && answer == [])
      || exists key ::
           rows.Keys == {key} && key.hash == e.hash && rows[key].userID == user && answer == [StoredOf(key, rows[key])]
    ensures IsPublished(rows, user, U.HashesOf([e]), answer)
  {
    assert U.HashesOf([e])[0] == e.hash;
  }

  // ---- a rollback loses the unread copy ----

  /** A hash not yet recorded stays unread and is recorded. */
  lemma FirstScreened(s: State, k: nat, answer: seq<Stored>, x: EntryV)
    requires OneEntry(s, k, answer, x) && ClassOf(KnownOf(answer), x, false).Create?
    requires x.hash !in DedupOrder.SeenBy(s.seen, s.jobs[k].user)
    ensures ScreenedState(s, k, answer) ==
      Goto(s.(seen := s.seen[s.jobs[k].user := DedupOrder.SeenBy(s.seen, s.jobs[k].user)[x.hash := x.feedID]],
              created := s.created + 1), k, Phase.Screened([x], []), 0)
  {
    CreatedOne(s, k, answer, x);
    assert [] + [x] == [x];
  }

  /** One recorded for another feed is turned to read. */
  lemma SecondScreened(s: State, m: nat, answer: seq<Stored>, y: EntryV)
    requires OneEntry(s, m, answer, y) && ClassOf(KnownOf(answer), y, false).Create? && s.jobs[m].user in s.seen
    requires var seen := s.seen[s.jobs[m].user]; y.hash in seen && seen[y.hash] != y.feedID
    ensures ScreenedState(s, m, answer) == Goto(s, m, Phase.Screened([y.(status := Status.Read)], []), 1)
  {
    CreatedOne(s, m, answer, y);
    assert [] + [y.(status := Status.Read)] == [y.(status := Status.Read)];
    assert s.(seen := s.seen[s.jobs[m].user := s.seen[s.jobs[m].user]], created := s.created + 0) == s;
  }

  lemma NewIsFirst(s: State, k: nat, x: EntryV)
    requires OneEntry(s, k, [], x) && s.jobs[k].phase.Idle? && s.rows == map[] && s.seen == map[]
    ensures IsRun(s, UpToScreen(k, []))
    ensures After(s, UpToScreen(k, [])) == Goto(
      s.(seen := map[s.jobs[k].user := map[x.hash := x.feedID]], created := s.created + 1), k,
      Phase.Screened([x], []), 0)
  {
    AnswerIs(s.rows, s.jobs[k].user, x, []);
    ScreenJob(s, k, []);
    FirstScreened(s, k, [], x);
    assert map[][x.hash := x.feedID] == map[x.hash := x.feedID];
  }

  lemma NewIsSecond(s: State, m: nat, y: EntryV, feed: Id)
    requires OneEntry(s, m, [], y) && s.jobs[m].phase.Idle? && s.rows == map[]
    requires s.seen == map[s.jobs[m].user := map[y.hash := feed]] && feed != y.feedID
    ensures IsRun(s, UpToScreen(m, []))
    ensures After(s, UpToScreen(m, [])) == Goto(s, m, Phase.Screened([y.(status := Status.Read)], []), 1)
  {
    AnswerIs(s.rows, s.jobs[m].user, y, []);
    ScreenJob(s, m, []);
    SecondScreened(s, m, [], y);
  }

  lemma BothScreened(s: State, k: nat, m: nat, x: EntryV, y: EntryV) returns (steps: seq<Step>)
    requires TwoCopies(s, k, m, x, y) && s.rows == map[]
    ensures IsRun(s, steps) && NothingOutside(steps)
    ensures var t := After(s, steps);
      && t.rows == map[] && t.next == s.next && |t.jobs| == 2
      && t.jobs[k].phase == Phase.Screened([x], [])
      && t.jobs[m].phase == Phase.Screened([y.(status := Status.Read)], [])
  {
    Copies(s, k, m, x, y);
    NewIsFirst(s, k, x);
    NewIsSecond(After(s, UpToScreen(k, [])), m, y, x.feedID);
    steps := UpToScreen(k, []) + UpToScreen(m, []);
    RunConcat(s, UpToScreen(k, []), UpToScreen(m, []));
  }

  lemma RollBackThenCommit(s: State, k: nat, m: nat, e: EntryV, now: Time)
    requires s.rows == map[] && k < |s.jobs| && m < |s.jobs| && k != m && s.jobs[k].phase.Screened?
    requires s.jobs[m].phase == Phase.Screened([e], [])
    ensures var steps := [Rollback(k), Commit(m, now)];
      && IsRun(s, steps)
      && var t := After(s, steps);
         && |t.jobs| == |s.jobs|
         && t.rows == map[KeyOf(e) := NewRow(e, s.next, now)]
         && t.jobs[k].phase.RolledBack? && t.jobs[m].phase.Committed?
  {
    var t := Do(s, Rollback(k));
    assert t.jobs[m] == s.jobs[m] && AfterUpdates(t, m, now) == map[];
    assert CanInsert(map[], [e], 1);
    assert InsertTo(map[], [e], t.next, now, 0) == map[];
    assert Enabled(t, Commit(m, now));
    RunTwo(s, Rollback(k), Commit(m, now));
  }

  /**
   The copy kept unread is a row of the table only if its refresh commits: the map is not rolled
   back with the transaction. When the first of the two feeds is filtered first and then rolls back,
   the second commits its copy as read, and no unread row is left.
   */
  lemma RollbackLosesUnread(s: State, k: nat, m: nat, x: EntryV, y: EntryV, now: Time) returns (steps: seq<Step>)
    requires TwoCopies(s, k, m, x, y) && s.rows == map[]
    ensures IsRun(s, steps) && NothingOutside(steps)
    ensures var t := After(s, steps);
      && |t.jobs| == 2
      && t.rows == map[KeyOf(y) := NewRow(y.(status := Status.Read), s.next, now)]
      && t.jobs[k].phase.RolledBack? && t.jobs[m].phase.Committed?
  {
    var head := BothScreened(s, k, m, x, y);
    var t := After(s, head);
    RollBackThenCommit(t, k, m, y.(status := Status.Read), now);
    steps := head + [Rollback(k), Commit(m, now)];
    RunConcat(s, head, [Rollback(k), Commit(m, now)]);
  }

  // ---- stored rows make the counts depend on the schedule ----

  /** The run gets every job past the filter and ends with these totals. */
  ghost predicate Counts(s: State, steps: seq<Step>, created: nat, dedups: nat) {
    && IsRun(s, steps) && NothingOutside(steps)
    && var t := After(s, steps); C.AllFiltered(t.jobs) && t.created == created && C.DedupSum(t.jobs) == dedups
  }

  ghost predicate StoredOlder(s: State, k: nat, m: nat, x: EntryV, y: EntryV, row: Row) {
    && TwoCopies(s, k, m, x, y) && s.rows == map[KeyOf(x) := row] && row.userID == s.jobs[k].user
    && row.date < y.date <= x.date
  }

  function AnswerOf(x: EntryV, row: Row): seq<Stored> { [StoredOf(KeyOf(x), row)] }

  /** A newer copy of an entry that another feed has is created as it is. */
  lemma NewerIsFirst(s: State, m: nat, y: EntryV, x: EntryV, row: Row)
    requires OneEntry(s, m, AnswerOf(x, row), y) && s.jobs[m].phase.Idle? && s.jobs[m].user !in s.seen
    requires s.rows == map[KeyOf(x) := row] && row.userID == s.jobs[m].user && x.hash == y.hash && x.feedID != y.feedID
    requires row.date < y.date
    ensures var steps := UpToScreen(m, AnswerOf(x, row)); IsRun(s, steps) && After(s, steps) == Goto(
      s.(seen := s.seen[s.jobs[m].user := map[][y.hash := y.feedID]], created := s.created + 1), m,
      Phase.Screened([y], []), 0)
  {
    AnswerIs(s.rows, s.jobs[m].user, y, AnswerOf(x, row));
    ScreenJob(s, m, AnswerOf(x, row));
    FirstScreened(s, m, AnswerOf(x, row), y);
  }

  /** One that is not newer is created as read. */
  lemma OlderIsSecond(s: State, m: nat, y: EntryV, x: EntryV, row: Row)
    requires OneEntry(s, m, AnswerOf(x, row), y) && s.jobs[m].phase.Idle? && s.jobs[m].user in s.seen
    requires s.rows == map[KeyOf(x) := row] && row.userID == s.jobs[m].user && x.hash == y.hash && x.feedID != y.feedID
    requires row.date >= y.date
    ensures var steps := UpToScreen(m, AnswerOf(x, row));
      IsRun(s, steps) && After(s, steps) == Goto(s, m, Phase.Screened([y.(status := Status.Read)], []), 1)
  {
    AnswerIs(s.rows, s.jobs[m].user, y, AnswerOf(x, row));
    ScreenJob(s, m, AnswerOf(x, row));
    CreatedReadOne(s, m, AnswerOf(x, row), y);
  }

  /** A newer version of the feed's own entry is an update. */
  lemma OwnIsUpdated(s: State, k: nat, x: EntryV, row: Row)
    requires OneEntry(s, k, AnswerOf(x, row), x) && s.jobs[k].phase.Idle? && row.date < x.date
    requires s.rows == map[KeyOf(x) := row] && row.userID == s.jobs[k].user
    ensures var steps := UpToScreen(k, AnswerOf(x, row)); IsRun(s, steps) && After(s, steps) == Goto(
      s.(seen := s.seen[s.jobs[k].user := DedupOrder.SeenBy(s.seen, s.jobs[k].user)]), k, Phase.Screened([], [x]), 0)
  {
    AnswerIs(s.rows, s.jobs[k].user, x, AnswerOf(x, row));
    ScreenJob(s, k, AnswerOf(x, row));
    UpdatedOne(s, k, AnswerOf(x, row), x);
  }

  /** The second feed first: its newer copy of the stored entry is shown as new. */
  lemma NewerFirst(s: State, k: nat, m: nat, x: EntryV, y: EntryV, row: Row) returns (steps: seq<Step>)
    requires StoredOlder(s, k, m, x, y, row)
    ensures Counts(s, steps, 1, 0)
  {
    Copies(s, k, m, x, y);
    var answer := AnswerOf(x, row);
    NewerIsFirst(s, m, y, x, row);
    OwnIsUpdated(After(s, UpToScreen(m, answer)), k, x, row);
    steps := UpToScreen(m, answer) + UpToScreen(k, answer);
    RunConcat(s, UpToScreen(m, answer), UpToScreen(k, answer));
    TwoDedups(After(s, steps).jobs, k, m);
  }

  lemma CommitUpdate(s: State, k: nat, x: EntryV, row: Row, now: Time)
    requires s.rows == map[KeyOf(x) := row] && row.userID == x.userID
    requires k < |s.jobs| && s.jobs[k].phase == Phase.Screened([], [x])
    ensures Enabled(s, Commit(k, now))
    ensures Do(s, Commit(k, now)) ==
      Goto(s.(rows := map[KeyOf(x) := UpdatedRow(row, x, now)]), k, Phase.Committed([]), 0)
  {
    assert UpdateTo(s.rows, [x], now, 0) == s.rows;
    assert AfterUpdates(s, k, now) == map[KeyOf(x) := UpdatedRow(row, x, now)];
  }

  /** The feed's own entry is updated, and that is committed. */
  lemma OwnIsCommitted(s: State, k: nat, x: EntryV, row: Row, now: Time) returns (steps: seq<Step>)
    requires OneEntry(s, k, AnswerOf(x, row), x) && s.jobs[k].phase.Idle? && row.date < x.date
    requires s.rows == map[KeyOf(x) := row] && row.userID == s.jobs[k].user == x.userID
    ensures IsRun(s, steps) && NothingOutside(steps)
    ensures After(s, steps) == Goto(
      s.(seen := s.seen[s.jobs[k].user := DedupOrder.SeenBy(s.seen, s.jobs[k].user)],
         rows := map[KeyOf(x) := UpdatedRow(row, x, now)]), k, Phase.Committed([]), 0)
  {
    OwnIsUpdated(s, k, x, row);
    var head := UpToScreen(k, AnswerOf(x, row));
    CommitUpdate(After(s, head), k, x, row, now);
    RunOne(After(s, head), Commit(k, now));
    RunConcat(s, head, [Commit(k, now)]);
    steps := head + [Commit(k, now)];
  }

  /** The first feed first: it commits a newer version, and the second feed's copy is turned to read. */
  lemma OlderFirst(s: State, k: nat, m: nat, x: EntryV, y: EntryV, row: Row, now: Time) returns (steps: seq<Step>)
    requires StoredOlder(s, k, m, x, y, row)
    ensures Counts(s, steps, 0, 1)
  {
    Copies(s, k, m, x, y);
    var head := OwnIsCommitted(s, k, x, row, now);
    var row' := UpdatedRow(row, x, now);
    OlderIsSecond(After(s, head), m, y, x, row');
    RunConcat(s, head, UpToScreen(m, AnswerOf(x, row')));
    steps := head + UpToScreen(m, AnswerOf(x, row'));
    TwoDedups(After(s, steps).jobs, k, m);
  }

  lemma TwoDedups(jobs: seq<Job>, k: nat, m: nat)
    requires |jobs| == 2 && k < 2 && m < 2 && k != m
    ensures C.DedupSum(jobs) == jobs[k].dedups + jobs[m].dedups
    ensures PastFilter(jobs[k].phase) && PastFilter(jobs[m].phase) ==> C.AllFiltered(jobs)
  {
    assert C.DedupSum(jobs[..1][..0]) == 0;
    assert jobs[..1][0] == jobs[0];
  }

  lemma CopiesAreClean(s: State, k: nat, m: nat, x: EntryV, y: EntryV)
    requires TwoCopies(s, k, m, x, y)
    ensures C.CleanBatch(s.jobs)
  {
    assert forall j: nat, a: nat :: C.Entry(s.jobs, j, a) ==> a == 0 && (j == k || j == m);
  }

  /**
   Why `CleanBatchCounts` asks for new hashes: with a stored copy older than both, the schedule
   decides whether the batch shows an entry as new or counts it as a duplicate. `ScheduleFree` says
   exactly when it does.
   */
  lemma StoredRowsMatter(s: State, k: nat, m: nat, x: EntryV, y: EntryV, row: Row) returns (a: seq<Step>, b: seq<Step>)
    requires StoredOlder(s, k, m, x, y, row)
    ensures C.CleanBatch(s.jobs)
    ensures Counts(s, a, 1, 0) && Counts(s, b, 0, 1)
  {
    CopiesAreClean(s, k, m, x, y);
    a := NewerFirst(s, k, m, x, y, row);
    b := OlderFirst(s, k, m, x, y, row, 0);
  }
}
