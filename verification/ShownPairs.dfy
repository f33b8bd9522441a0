/**
 Which hashes of a batch are shown to a user as new on every schedule, and which on none
 (internal/storage/dedup.go, internal/model/feed.go). An entry whose feed has no row of its hash is
 shown when the row that `Append` finds of another feed is older, or when there is none.
 */
module ShownPairs {
  import opened BatchDedup
  import opened BatchTotals
  import opened EntryRows
  import opened RefreshSpec
  import C = BatchCounts
  import DedupOrder
  import U = UpsertSpec

  // ---- the two fates of a pair ----

  /** A newest new entry, newer than every row of the pair and than whatever the batch stores over one. */
  ghost predicate Top(s: State, j: nat, a: nat, p: Pair) {
    && New(s, j, a, p)
    && (forall k: nat, b: nat :: New(s, k, b, p) ==> s.jobs[k].vs[b].date <= s.jobs[j].vs[a].date)
    && (forall key :: Old(s.rows, key, p) ==> s.rows[key].date < s.jobs[j].vs[a].date)
    && (forall k: nat, b: nat :: Of(s.jobs, k, b, p) && KeyOf(s.jobs[k].vs[b]) in s.rows ==>
          s.jobs[k].vs[b].date < s.jobs[j].vs[a].date)
  }

  ghost predicate Rises(s: State, p: Pair) { exists j: nat, a: nat :: Top(s, j, a, p) }

  ghost predicate HasOld(rows: Rows, p: Pair) { exists key :: Old(rows, key, p) }

  /** There is a row of the pair, and none is older than the new entry. */
  ghost predicate Covered(rows: Rows, p: Pair, date: Time) {
    HasOld(rows, p) && forall key :: Old(rows, key, p) ==> date <= rows[key].date
  }

  /** All new entries have one date and are covered; so are they when there are none. */
  ghost predicate Settled(s: State, p: Pair) {
    && (forall j: nat, a: nat :: New(s, j, a, p) ==> Covered(s.rows, p, s.jobs[j].vs[a].date))
    && (forall j: nat, a: nat, k: nat, b: nat :: New(s, j, a, p) && New(s, k, b, p) ==>
          s.jobs[j].vs[a].date == s.jobs[k].vs[b].date)
  }

  // ---- what a job is about to show ----

  ghost predicate HasUnread(es: seq<EntryV>, h: Hash) {
    exists i :: 0 <= i < |es| && es[i].hash == h && es[i].status.Unread?
  }

  ghost predicate ReadsNew(j: Job, answer: seq<Stored>, h: Hash) {
    exists a :: 0 <= a < |j.vs| && j.vs[a].hash == h && ClassAt(j, answer, a).Create?
  }

  /** The job has a copy of the hash that will reach its filter unread. */
  ghost predicate WillShow(j: Job, h: Hash) {
    match j.phase
    case Read(answer) => ReadsNew(j, answer, h)
    case Sorted(created, _) => HasUnread(created, h)
    case _ => false
  }

  lemma SortShows(rows0: Rows, j: Job, answer: seq<Stored>, h: Hash)
    requires Fit(rows0, j) && JobIs(rows0, j.(phase := Phase.Read(answer), dedups := 0))
    ensures HasUnread(U.Listed(Target.Created, RefreshOf(j, answer)), h) <==> ReadsNew(j, answer, h)
  {
    var r := RefreshOf(j, answer);
    var es := U.Listed(Target.Created, r);
    if i :| 0 <= i < |es| && es[i].hash == h && es[i].status.Unread? {
      var a := ListedFrom(rows0, j, answer, Target.Created, i);
      assert ShownNew(j.vs[a]);
      assert ClassAt(j, answer, a).Create?;
    }
    if a :| 0 <= a < |j.vs| && j.vs[a].hash == h && ClassAt(j, answer, a).Create? {
      U.ChosenHas(Target.Created, U.AppendedAll(r), r.vs, U.Known(r), r.force, |r.vs|, a);
      var n := |Chosen(Target.Created, U.AppendedAll(r), r.vs, U.Known(r), r.force, a)|;
      assert es[n] == j.vs[a] && ShownNew(j.vs[a]);
    }
  }

  /** A filter step records what its job was about to show. */
  lemma ScreenShows(s: State, k: nat, user: Id, h: Hash)
    requires Enabled(s, Screen(k))
    ensures h in DedupOrder.SeenBy(Do(s, Screen(k)).seen, user) <==>
      h in DedupOrder.SeenBy(s.seen, user) || (user == s.jobs[k].user && WillShow(s.jobs[k], h))
  {
    var es := s.jobs[k].phase.created;
    C.FilterKeys(DedupOrder.SeenBy(s.seen, s.jobs[k].user), es, |es|, h);
  }

  // ---- what a job reads ----

  /** The stored copy a job finds is a row of the pair. */
  lemma KnownIsOld(s: State, k: nat, answer: seq<Stored>, a: nat)
    requires Enabled(s, ReadRows(k, answer)) && a < |s.jobs[k].vs|
    ensures var h, known := s.jobs[k].vs[a].hash, U.Known(RefreshOf(s.jobs[k], answer)); var p := (s.jobs[k].user, h);
      && (h in known <==> HasOld(s.rows, p))
      && (h in known ==> var key := Key(known[h].feedID, h); Old(s.rows, key, p) && s.rows[key].date == known[h].date)
  {
    var j := s.jobs[k];
    var h := j.vs[a].hash;
    StoredByMeaning(j.feed, answer, h);
    assert U.HashesOf(j.vs)[a] == h;
    if key :| Old(s.rows, key, (j.user, h)) {
      assert Published(s.rows, j.user, U.HashesOf(j.vs), key);
      var n :| 0 <= n < |answer| && answer[n] == StoredOf(key, s.rows[key]);
    }
    if h in StoredBy(j.feed, answer) {
      var n :| 0 <= n < |answer| && answer[n] == StoredBy(j.feed, answer)[h];
      assert Published(s.rows, j.user, U.HashesOf(j.vs), Key(answer[n].feedID, answer[n].hash));
      assert Old(s.rows, Key(answer[n].feedID, h), (j.user, h));
    }
  }

  /** An entry whose feed has a row is not shown; a new one is when the copy found is older, or missing. */
  lemma ReadShows(s0: State, s: State, k: nat, answer: seq<Stored>, a: nat)
    requires Ready(s0) && Inv(s0, s) && Enabled(s, ReadRows(k, answer)) && a < |s.jobs[k].vs|
    ensures var v, known := s.jobs[k].vs[a], U.Known(RefreshOf(s.jobs[k], answer));
      ReadsNew(s.jobs[k], answer, v.hash) <==>
        KeyOf(v) !in s0.rows && (v.hash in known ==> v.date > known[v.hash].date)
  {
    var j := s.jobs[k];
    var v := j.vs[a];
    ReadIs(s0, s, k, answer);
    JobFits(s0, s, k);
    assert RightClass(s0.rows, v, ClassAt(j, answer, a));
    assert forall b :: 0 <= b < |j.vs| && j.vs[b].hash == v.hash ==> b == a;
  }

  // ---- settled pairs are never shown ----

  /** The rows of a settled pair keep covering its new entries. */
  lemma SettledRows(s0: State, s: State, p: Pair, j: nat, a: nat)
    requires Ready(s0) && Inv(s0, s) && Settled(s0, p) && New(s0, j, a, p)
    ensures Covered(s.rows, p, s0.jobs[j].vs[a].date)
  {
    var d := s0.jobs[j].vs[a].date;
    assert Covered(s0.rows, p, d);
    var some :| Old(s0.rows, some, p);
    OldStays(s0, s, some, p);
    forall key | Old(s.rows, key, p) ensures d <= s.rows[key].date {
      var k, b, wrote := WhoWrote(s0, s, key);
      if wrote { assert Of(s0.jobs, k, b, p); }
      if key in s0.rows { assert Old(s0.rows, key, p); } else { assert New(s0, k, b, p); }
    }
  }

  /** The entry that a row was written with last, if the batch wrote it. */
  lemma WhoWrote(s0: State, s: State, key: Key) returns (k: nat, b: nat, wrote: bool)
    requires Ready(s0) && Inv(s0, s) && key in s.rows
    ensures !wrote ==> SameRow(s0.rows, s.rows, key)
    ensures wrote ==> WroteAt(s.jobs, key, k, b) && C.Entry(s0.jobs, k, b) && s0.jobs[k].vs[b] == s.jobs[k].vs[b]
    ensures wrote ==> Holds(s.rows, key, s0.jobs[k].user, Due(s0.rows, s0.jobs[k].vs[b]))
    ensures wrote && key in s0.rows ==> s0.rows[key].userID == s0.jobs[k].user
  {
    assert RowIs(s0.rows, s, key);
    k, b, wrote := 0, 0, false;
    if x: nat, y: nat :| WroteAt(s.jobs, key, x, y) {
      k, b, wrote := x, y, true;
      JobFits(s0, s, k);
      assert s.jobs[k].vs[b].feedID == s.jobs[k].feed;
    }
  }

  lemma OldStays(s0: State, s: State, key: Key, p: Pair)
    requires Ready(s0) && Inv(s0, s) && Old(s0.rows, key, p)
    ensures Old(s.rows, key, p) && s.rows[key].date >= s0.rows[key].date
  {
    assert RowIs(s0.rows, s, key);
    if x: nat, y: nat :| WroteAt(s.jobs, key, x, y) {
      JobFits(s0, s, x);
      assert s.jobs[x].vs[y].feedID == s.jobs[x].feed;
    }
  }

  ghost predicate Quiet(s: State, p: Pair) {
    p.1 !in DedupOrder.SeenBy(s.seen, p.0)
    && forall k :: 0 <= k < |s.jobs| && s.jobs[k].user == p.0 ==> !WillShow(s.jobs[k], p.1)
  }

  lemma ReadQuiet(s0: State, s: State, k: nat, answer: seq<Stored>, p: Pair)
    requires Ready(s0) && Inv(s0, s) && Settled(s0, p) && Enabled(s, ReadRows(k, answer)) && s.jobs[k].user == p.0
    ensures !ReadsNew(s.jobs[k], answer, p.1)
  {
    if a :| 0 <= a < |s.jobs[k].vs| && s.jobs[k].vs[a].hash == p.1 && ClassAt(s.jobs[k], answer, a).Create? {
      ReadShows(s0, s, k, answer, a);
      KnownIsOld(s, k, answer, a);
      assert New(s0, k, a, p);
      SettledRows(s0, s, p, k, a);
    }
  }

  lemma SortQuiet(s0: State, s: State, k: nat, h: Hash)
    requires Ready(s0) && Inv(s0, s) && Enabled(s, Sort(k)) && !WillShow(s.jobs[k], h)
    ensures !WillShow(Do(s, Sort(k)).jobs[k], h)
  {
    JobFits(s0, s, k);
    assert JobIs(s0.rows, s.jobs[k]);
    SortShows(s0.rows, s.jobs[k], s.jobs[k].phase.answer, h);
  }

  lemma StepQuiet(s0: State, s: State, step: Step, p: Pair)
    requires Ready(s0) && Inv(s0, s) && Settled(s0, p) && Quiet(s, p) && Enabled(s, step) && !step.Outside?
    ensures Quiet(Do(s, step), p)
  {
    var t := Do(s, step);
    forall k | 0 <= k < |t.jobs| && t.jobs[k].user == p.0 ensures !WillShow(t.jobs[k], p.1) {
      assert !WillShow(s.jobs[k], p.1);
      if k != step.k {
        assert t.jobs[k] == s.jobs[k];
      } else if step.ReadRows? {
        ReadQuiet(s0, s, k, step.answer, p);
      } else if step.Sort? {
        SortQuiet(s0, s, k, p.1);
      }
    }
    if step.Screen? { ScreenShows(s, step.k, p.0, p.1); }
  }

  lemma {:induction false} RunQuiet(s0: State, s: State, steps: seq<Step>, p: Pair)
    requires Ready(s0) && Inv(s0, s) && Settled(s0, p) && Quiet(s, p) && IsRun(s, steps) && NothingOutside(steps)
    ensures Quiet(After(s, steps), p)
    decreases |steps|
  {
    if steps != [] {
      StepQuiet(s0, s, steps[0], p);
      StepInv(s0, s, steps[0]);
      RunQuiet(s0, Do(s, steps[0]), steps[1..], p);
    }
  }

  // ---- rising pairs are always shown ----

  /** The job has not filtered, and once it has read, it is about to show the hash. */
  ghost predicate Coming(j: Job, h: Hash) {
    !PastFilter(j.phase) && (j.phase.Read? || j.phase.Sorted? ==> WillShow(j, h))
  }

  /** Until the pair is recorded all its newest entries are still coming. */
  ghost predicate StillComing(s0: State, s: State, p: Pair, d: Time) {
    p.1 in DedupOrder.SeenBy(s.seen, p.0)
    || forall k: nat, b: nat :: k < |s.jobs| && New(s0, k, b, p) && s0.jobs[k].vs[b].date == d ==>
      Coming(s.jobs[k], p.1)
  }

  /** Until then every row of the pair is older than they are. */
  lemma RisingRows(s0: State, s: State, p: Pair, j: nat, a: nat, key: Key)
    requires Ready(s0) && Inv(s0, s) && Top(s0, j, a, p) && StillComing(s0, s, p, s0.jobs[j].vs[a].date)
    requires p.1 !in DedupOrder.SeenBy(s.seen, p.0) && Old(s.rows, key, p)
    ensures s.rows[key].date < s0.jobs[j].vs[a].date
  {
    var k, b, wrote := WhoWrote(s0, s, key);
    if wrote {
      assert Of(s0.jobs, k, b, p);
      if key !in s0.rows { assert New(s0, k, b, p); }
    }
    if key in s0.rows { assert Old(s0.rows, key, p); }
  }

  lemma ReadComing(s0: State, s: State, k: nat, answer: seq<Stored>, p: Pair, j: nat, a: nat, b: nat)
    requires Ready(s0) && Inv(s0, s) && Top(s0, j, a, p) && StillComing(s0, s, p, s0.jobs[j].vs[a].date)
    requires p.1 !in DedupOrder.SeenBy(s.seen, p.0) && Enabled(s, ReadRows(k, answer))
    requires New(s0, k, b, p) && s0.jobs[k].vs[b].date == s0.jobs[j].vs[a].date
    ensures ReadsNew(s.jobs[k], answer, p.1)
  {
    ReadShows(s0, s, k, answer, b);
    KnownIsOld(s, k, answer, b);
    var known := U.Known(RefreshOf(s.jobs[k], answer));
    if p.1 in known { RisingRows(s0, s, p, j, a, Key(known[p.1].feedID, p.1)); }
  }

  lemma SortComing(s0: State, s: State, k: nat, p: Pair)
    requires Ready(s0) && Inv(s0, s) && Enabled(s, Sort(k)) && Coming(s.jobs[k], p.1)
    ensures Coming(Do(s, Sort(k)).jobs[k], p.1)
  {
    JobFits(s0, s, k);
    assert JobIs(s0.rows, s.jobs[k]);
    SortShows(s0.rows, s.jobs[k], s.jobs[k].phase.answer, p.1);
  }

  /** A job that is coming records the pair when it filters. */
  lemma ScreenComing(s: State, k: nat, p: Pair)
    requires Enabled(s, Screen(k)) && Coming(s.jobs[k], p.1) && s.jobs[k].user == p.0
    ensures p.1 in DedupOrder.SeenBy(Do(s, Screen(k)).seen, p.0)
  {
    ScreenShows(s, k, p.0, p.1);
  }

  /** A newest entry's job that moves without recording the pair is still coming. */
  lemma MoverComing(s0: State, s: State, step: Step, p: Pair, j: nat, a: nat, b: nat)
    requires Ready(s0) && Inv(s0, s) && Top(s0, j, a, p) && StillComing(s0, s, p, s0.jobs[j].vs[a].date)
    requires p.1 !in DedupOrder.SeenBy(s.seen, p.0) && Enabled(s, step) && !step.Outside? && !step.Screen?
    requires New(s0, step.k, b, p) && s0.jobs[step.k].vs[b].date == s0.jobs[j].vs[a].date
    ensures Coming(Do(s, step).jobs[step.k], p.1)
  {
    assert Coming(s.jobs[step.k], p.1);
    match step
    case ReadRows(k, answer) => ReadComing(s0, s, k, answer, p, j, a, b);
    case Sort(k) => SortComing(s0, s, k, p);
    case _ =>
  }

  lemma StepComing(s0: State, s: State, step: Step, p: Pair, j: nat, a: nat)
    requires Ready(s0) && Inv(s0, s) && Top(s0, j, a, p) && StillComing(s0, s, p, s0.jobs[j].vs[a].date)
    requires Enabled(s, step) && !step.Outside?
    ensures StillComing(s0, Do(s, step), p, s0.jobs[j].vs[a].date)
  {
    var t := Do(s, step);
    if step.Screen? { ScreenShows(s, step.k, p.0, p.1); }
    if p.1 !in DedupOrder.SeenBy(t.seen, p.0) {
      forall k: nat, b: nat | k < |t.jobs| && New(s0, k, b, p) && s0.jobs[k].vs[b].date == s0.jobs[j].vs[a].date
        ensures Coming(t.jobs[k], p.1)
      {
        assert Coming(s.jobs[k], p.1);
        if k != step.k {
          assert t.jobs[k] == s.jobs[k];
        } else if step.Screen? {
          ScreenComing(s, k, p);
        } else {
          MoverComing(s0, s, step, p, j, a, b);
        }
      }
    }
  }

  lemma {:induction false} RunComing(s0: State, s: State, steps: seq<Step>, p: Pair, j: nat, a: nat)
    requires Ready(s0) && Inv(s0, s) && Top(s0, j, a, p) && StillComing(s0, s, p, s0.jobs[j].vs[a].date)
    requires IsRun(s, steps) && NothingOutside(steps)
    ensures StillComing(s0, After(s, steps), p, s0.jobs[j].vs[a].date)
    decreases |steps|
  {
    if steps != [] {
      StepComing(s0, s, steps[0], p, j, a);
      StepInv(s0, s, steps[0]);
      RunComing(s0, Do(s, steps[0]), steps[1..], p, j, a);
    }
  }

  // ---- every schedule ----

  ghost predicate Completes(s: State, steps: seq<Step>) {
    IsRun(s, steps) && NothingOutside(steps) && C.AllFiltered(After(s, steps).jobs)
  }

  predicate Shown(s: State, p: Pair) { p.1 in DedupOrder.SeenBy(s.seen, p.0) }

  /** No run shows a settled pair. */
  lemma SettledNeverShown(s0: State, steps: seq<Step>, p: Pair)
    requires Ready(s0) && Settled(s0, p) && IsRun(s0, steps) && NothingOutside(steps)
    ensures !Shown(After(s0, steps), p)
  {
    InvStart(s0);
    assert forall k :: 0 <= k < |s0.jobs| ==> StartsIdle(s0.jobs[k]);
    RunQuiet(s0, s0, steps, p);
  }

  /** Every complete run shows a rising one. */
  lemma RisingAlwaysShown(s0: State, steps: seq<Step>, p: Pair)
    requires Ready(s0) && Rises(s0, p) && Completes(s0, steps)
    ensures Shown(After(s0, steps), p)
  {
    InvStart(s0);
    var j: nat, a: nat :| Top(s0, j, a, p);
    forall k: nat, b: nat | New(s0, k, b, p) ensures Coming(s0.jobs[k], p.1) { assert StartsIdle(s0.jobs[k]); }
    RunComing(s0, s0, steps, p, j, a);
    RunInv(s0, s0, steps);
    var t := After(s0, steps);
    assert New(s0, j, a, p) && j < |t.jobs| && PastFilter(t.jobs[j].phase);
  }

  // ---- the totals ----

  /** Entries of the batch whose feed has no row of them. */
  function NewSum(rows0: Rows, jobs: seq<Job>): nat {
    if jobs == [] then 0
    else NewSum(rows0, jobs[..|jobs| - 1]) + NewCount(rows0, jobs[|jobs| - 1].vs, |jobs[|jobs| - 1].vs|)
  }

  lemma {:induction false} AllGained(rows0: Rows, jobs: seq<Job>)
    requires C.AllFiltered(jobs)
    ensures Gained(rows0, jobs) == NewSum(rows0, jobs) - C.DedupSum(jobs)
  {
    if jobs != [] { AllGained(rows0, jobs[..|jobs| - 1]); }
  }

  lemma {:induction false} SameNewSum(rows0: Rows, a: seq<Job>, b: seq<Job>)
    requires C.SameWork(a, b)
    ensures NewSum(rows0, a) == NewSum(rows0, b)
  {
    if a != [] { SameNewSum(rows0, a[..|a| - 1], b[..|b| - 1]); }
  }

  /** `created` counts the pairs shown, and every other new entry is a counted duplicate. */
  lemma CompleteTotals(s0: State, steps: seq<Step>)
    requires Ready(s0) && Completes(s0, steps)
    ensures var t := After(s0, steps);
      t.created == |DedupOrder.Pairs(t.seen)| && C.DedupSum(t.jobs) == NewSum(s0.rows, s0.jobs) - t.created
  {
    var t := After(s0, steps);
    CreatedCountsRecorded(s0, steps);
    InvStart(s0);
    RunInv(s0, s0, steps);
    AllGained(s0.rows, t.jobs);
    SameNewSum(s0.rows, s0.jobs, t.jobs);
  }
}
