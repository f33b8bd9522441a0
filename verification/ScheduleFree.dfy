/**
 Exactly which batches have the same totals on every schedule (internal/storage/entry.go,
 internal/storage/dedup.go). A pair that is neither settled nor rising is shown on one serial
 schedule and not on another that differs in one listing of rows, or in the place of one refresh.
 */
module ScheduleFree {
  import opened BatchDedup
  import opened BatchTotals
  import opened EntryRows
  import opened RefreshSpec
  import opened ShownPairs
  import C = BatchCounts
  import DedupOrder
  import E = BatchExamples
  import U = UpsertSpec

  // ---- listing the rows of a hash with a given feed first ----

  /** The rows of the preferred feeds come first. */
  ghost predicate Prefers(answer: seq<Stored>, first: Hash -> Id) {
    forall i, j :: 0 <= i < j < |answer| && answer[j].feedID == first(answer[j].hash) ==>
      answer[i].feedID == first(answer[i].hash)
  }

  /** Exactly these rows, each once. */
  ghost predicate Lists(rows: Rows, answer: seq<Stored>, keys: set<Key>) {
    && (forall i :: 0 <= i < |answer| ==>
          var key := Key(answer[i].feedID, answer[i].hash);
            key in keys && key in rows && answer[i] == StoredOf(key, rows[key]))
    && (forall key :: key in keys && key in rows ==> StoredOf(key, rows[key]) in answer)
    && OnceEach(answer)
  }

  lemma {:induction false} ListWith(rows: Rows, keys: set<Key>, first: Hash -> Id) returns (answer: seq<Stored>)
    requires forall key :: key in keys ==> key in rows
    ensures Lists(rows, answer, keys) && Prefers(answer, first)
    decreases |keys|
  {
    if keys == {} {
      answer := [];
    } else {
      var key :| key in keys;
      var rest := ListWith(rows, keys - {key}, first);
      if key.feed == first(key.hash) {
        answer := [StoredOf(key, rows[key])] + rest;
        FirstListed(rows, keys, rest, key, first);
      } else {
        answer := rest + [StoredOf(key, rows[key])];
        LastListed(rows, keys, rest, key, first);
      }
    }
  }

  lemma FirstListed(rows: Rows, keys: set<Key>, rest: seq<Stored>, key: Key, first: Hash -> Id)
    requires key in keys && key in rows && Lists(rows, rest, keys - {key}) && Prefers(rest, first)
    requires key.feed == first(key.hash)
    ensures var answer := [StoredOf(key, rows[key])] + rest; Lists(rows, answer, keys) && Prefers(answer, first)
  {
    var row := StoredOf(key, rows[key]);
    var answer := [row] + rest;
    assert forall i :: 0 < i < |answer| ==> answer[i] == rest[i - 1];
    assert answer[0] == row && forall r :: r in rest ==> r in answer;
  }

  lemma LastListed(rows: Rows, keys: set<Key>, rest: seq<Stored>, key: Key, first: Hash -> Id)
    requires key in keys && key in rows && Lists(rows, rest, keys - {key}) && Prefers(rest, first)
    requires key.feed != first(key.hash)
    ensures var answer := rest + [StoredOf(key, rows[key])]; Lists(rows, answer, keys) && Prefers(answer, first)
  {
    var row := StoredOf(key, rows[key]);
    var answer := rest + [row];
    assert forall i :: 0 <= i < |rest| ==> answer[i] == rest[i];
    assert answer[|rest|] == row && forall r :: r in rest ==> r in answer;
  }

  lemma Listing(rows: Rows, user: Id, hashes: seq<Hash>, first: Hash -> Id) returns (answer: seq<Stored>)
    ensures IsPublished(rows, user, hashes, answer) && Prefers(answer, first)
  {
    var keys := set key | key in rows && Published(rows, user, hashes, key);
    answer := ListWith(rows, keys, first);
  }

  /** The pair has a row of its preferred feed. */
  predicate Decided(rows: Rows, first: Pair -> Id, q: Pair) { Old(rows, Key(first(q), q.1), q) }

  /** Then a job without a row of its own finds that one. */
  lemma FindsFirst(s: State, k: nat, answer: seq<Stored>, first: Pair -> Id, a: nat)
    requires Enabled(s, ReadRows(k, answer)) && a < |s.jobs[k].vs|
    requires Prefers(answer, h => first((s.jobs[k].user, h)))
    requires var h := s.jobs[k].vs[a].hash;
      Decided(s.rows, first, (s.jobs[k].user, h)) && Key(s.jobs[k].feed, h) !in s.rows
    ensures var h, known := s.jobs[k].vs[a].hash, U.Known(RefreshOf(s.jobs[k], answer));
      h in known && known[h].date == s.rows[Key(first((s.jobs[k].user, h)), h)].date
  {
    var j := s.jobs[k];
    var h := j.vs[a].hash;
    var key := Key(first((j.user, h)), h);
    StoredByMeaning(j.feed, answer, h);
    assert U.HashesOf(j.vs)[a] == h;
    assert Published(s.rows, j.user, U.HashesOf(j.vs), key);
    var n :| 0 <= n < |answer| && answer[n] == StoredOf(key, s.rows[key]);
    var m := StoredBy(j.feed, answer);
    assert m[h].feedID != j.feed;
    var i :| 0 <= i < |answer| && answer[i] == m[h] && forall x :: 0 <= x < i ==> answer[x].hash != h;
    PreferredIsFirst(answer, g => first((j.user, g)), i, n);
  }

  /** A preferred row has no other row of its hash before it. */
  lemma PreferredIsFirst(answer: seq<Stored>, first: Hash -> Id, i: nat, n: nat)
    requires i <= n < |answer| && answer[i].hash == answer[n].hash && answer[n].feedID == first(answer[n].hash)
    requires Prefers(answer, first) && OnceEach(answer)
    ensures i == n
  {
  }

  // ---- one job's turn ----

  /** A new entry of job `k` is newer than the preferred row of the pair. */
  ghost predicate Beats(s0: State, rows: Rows, k: nat, first: Pair -> Id, q: Pair) {
    var key := Key(first(q), q.1);
    key in rows && exists a: nat :: New(s0, k, a, q) && s0.jobs[k].vs[a].date > rows[key].date
  }

  ghost predicate Waits(s: State, k: nat) { k < |s.jobs| && s.jobs[k].phase.Idle? }

  /** What a turn leaves: the job filtered, the table as it was, and what beats the preferred rows shown. */
  ghost predicate Turned(s0: State, s: State, t: State, k: nat, first: Pair -> Id) {
    && k < |s.jobs| == |t.jobs| && t.rows == s.rows && t.jobs[k].phase.Screened?
    && (forall j :: 0 <= j < |s.jobs| && j != k ==> t.jobs[j] == s.jobs[j])
    && forall q :: Decided(s.rows, first, q) ==> (Shown(t, q) <==> Shown(s, q) || Beats(s0, s.rows, k, first, q))
  }

  lemma ReadBeats(s0: State, s: State, k: nat, answer: seq<Stored>, first: Pair -> Id, q: Pair)
    requires Ready(s0) && Inv(s0, s) && Enabled(s, ReadRows(k, answer))
      && Prefers(answer, h => first((s.jobs[k].user, h)))
    requires Decided(s.rows, first, q) && s.jobs[k].user == q.0
    ensures ReadsNew(s.jobs[k], answer, q.1) <==> Beats(s0, s.rows, k, first, q)
  {
    var j := s.jobs[k];
    JobFits(s0, s, k);
    if a :| 0 <= a < |j.vs| && j.vs[a].hash == q.1 {
      ReadShows(s0, s, k, answer, a);
      OwnRows(s0, s, k, KeyOf(j.vs[a]));
      if KeyOf(j.vs[a]) !in s0.rows {
        FindsFirst(s, k, answer, first, a);
        assert New(s0, k, a, q);
        assert forall b: nat :: New(s0, k, b, q) ==> b == a;
      }
    }
  }

  lemma Turn(s0: State, s: State, k: nat, first: Pair -> Id) returns (steps: seq<Step>)
    requires Ready(s0) && Inv(s0, s) && Waits(s, k)
    ensures IsRun(s, steps) && NothingOutside(steps)
    ensures Turned(s0, s, After(s, steps), k, first) && Inv(s0, After(s, steps))
  {
    var j := s.jobs[k];
    var answer := Listing(s.rows, j.user, U.HashesOf(j.vs), h => first((j.user, h)));
    steps := E.UpToScreen(k, answer);
    E.ScreenJob(s, k, answer);
    RunInv(s0, s, steps);
    forall q | Decided(s.rows, first, q)
      ensures Shown(After(s, steps), q) <==> Shown(s, q) || Beats(s0, s.rows, k, first, q)
    {
      TurnShows(s0, s, k, answer, q);
      if j.user == q.0 { ReadBeats(s0, s, k, answer, first, q); } else { assert forall a: nat :: !New(s0, k, a, q); }
    }
  }

  lemma TurnShows(s0: State, s: State, k: nat, answer: seq<Stored>, q: Pair)
    requires Ready(s0) && Inv(s0, s) && Enabled(s, ReadRows(k, answer))
    ensures Shown(E.ScreenedState(s, k, answer), q) <==>
      Shown(s, q) || (s.jobs[k].user == q.0 && ReadsNew(s.jobs[k], answer, q.1))
  {
    var t := E.SortedState(s, k, answer);
    E.ScreenSorted(s, k, answer);
    JobFits(s0, s, k);
    ReadIs(s0, s, k, answer);
    SortShows(s0.rows, s.jobs[k], answer, q.1);
    ScreenShows(t, k, q.0, q.1);
  }

  // ---- a turn that commits ----

  lemma CanCommit(s0: State, s: State, k: nat, now: Time)
    requires Ready(s0) && Inv(s0, s) && k < |s.jobs| && s.jobs[k].phase.Screened?
    ensures Enabled(s, Commit(k, now))
  {
    var j := s.jobs[k];
    var es, us := j.phase.created, j.phase.updated;
    assert JobIs(s0.rows, j);
    JobFits(s0, s, k);
    forall i | 0 <= i < |us| ensures Hits(s.rows, us[i]) {
      assert FromOld(s0.rows, j.vs, us[i]);
      OwnRows(s0, s, k, KeyOf(us[i]));
    }
    forall i | 0 <= i < |es| ensures KeyOf(es[i]) !in AfterUpdates(s, k, now) {
      assert FromNew(s0.rows, j.vs, es[i]);
      OwnRows(s0, s, k, KeyOf(es[i]));
    }
  }

  /** What a committing turn leaves; the table follows from the invariant. */
  ghost predicate CommittedTurn(s0: State, s: State, t: State, k: nat, first: Pair -> Id) {
    && k < |s.jobs| == |t.jobs| && t.jobs[k].phase.Committed?
    && (forall j :: 0 <= j < |s.jobs| && j != k ==> t.jobs[j] == s.jobs[j])
    && forall q :: Decided(s.rows, first, q) ==> (Shown(t, q) <==> Shown(s, q) || Beats(s0, s.rows, k, first, q))
  }

  lemma CommittingTurn(s0: State, s: State, k: nat, first: Pair -> Id) returns (steps: seq<Step>)
    requires Ready(s0) && Inv(s0, s) && Waits(s, k)
    ensures IsRun(s, steps) && NothingOutside(steps)
    ensures CommittedTurn(s0, s, After(s, steps), k, first) && Inv(s0, After(s, steps))
  {
    var head := Turn(s0, s, k, first);
    var t := After(s, head);
    CanCommit(s0, t, k, 0);
    E.RunOne(t, Commit(k, 0));
    E.RunConcat(s, head, [Commit(k, 0)]);
    steps := head + [Commit(k, 0)];
    StepInv(s0, t, Commit(k, 0));
  }

  // ---- the rest of a batch, without commits ----

  ghost predicate Begun(s: State) {
    forall j :: 0 <= j < |s.jobs| ==> s.jobs[j].phase.Idle? || PastFilter(s.jobs[j].phase)
  }

  /** Some waiting job from `i` on beats the preferred row. */
  ghost predicate RestBeats(s0: State, s: State, i: nat, first: Pair -> Id, q: Pair) {
    exists k: nat :: i <= k && Waits(s, k) && Beats(s0, s.rows, k, first, q)
  }

  /** Every pair with a preferred row is shown in the end if it was, or if a waiting job beats that row. */
  ghost predicate RestedFrom(s0: State, s: State, u: State, i: nat, first: Pair -> Id) {
    forall q :: Decided(s.rows, first, q) ==> (Shown(u, q) <==> Shown(s, q) || RestBeats(s0, s, i, first, q))
  }

  ghost predicate Rested(s0: State, s: State, u: State, first: Pair -> Id) { RestedFrom(s0, s, u, 0, first) }

  lemma {:induction false} RestFrom(s0: State, s: State, i: nat, first: Pair -> Id) returns (steps: seq<Step>)
    requires Ready(s0) && Inv(s0, s) && Begun(s) && i <= |s.jobs| && forall j :: 0 <= j < i ==> !s.jobs[j].phase.Idle?
    ensures IsRun(s, steps) && NothingOutside(steps) && C.AllFiltered(After(s, steps).jobs)
    ensures RestedFrom(s0, s, After(s, steps), i, first)
    decreases |s.jobs| - i
  {
    if i == |s.jobs| {
      steps := [];
    } else if s.jobs[i].phase.Idle? {
      var head := Turn(s0, s, i, first);
      var t := After(s, head);
      var tail := RestFrom(s0, t, i + 1, first);
      steps := head + tail;
      E.RunConcat(s, head, tail);
      forall q | Decided(s.rows, first, q)
        ensures Shown(After(s, steps), q) <==> Shown(s, q) || RestBeats(s0, s, i, first, q)
      {
        OneMoreBeats(s0, s, t, i, first, q);
      }
    } else {
      steps := RestFrom(s0, s, i + 1, first);
      forall q | Decided(s.rows, first, q)
        ensures Shown(After(s, steps), q) <==> Shown(s, q) || RestBeats(s0, s, i, first, q)
      {
        assert RestBeats(s0, s, i, first, q) <==> RestBeats(s0, s, i + 1, first, q);
      }
    }
  }

  lemma OneMoreBeats(s0: State, s: State, t: State, i: nat, first: Pair -> Id, q: Pair)
    requires Turned(s0, s, t, i, first) && s.jobs[i].phase.Idle?
    ensures RestBeats(s0, s, i, first, q) <==> Beats(s0, s.rows, i, first, q) || RestBeats(s0, t, i + 1, first, q)
  {
    if k: nat :| i <= k && Waits(s, k) && Beats(s0, s.rows, k, first, q) && k != i {
      assert Waits(t, k) && Beats(s0, t.rows, k, first, q);
    }
    if k: nat :| i + 1 <= k && Waits(t, k) && Beats(s0, t.rows, k, first, q) {
      assert Waits(s, k) && Beats(s0, s.rows, k, first, q);
    }
    if Beats(s0, s.rows, i, first, q) { assert Waits(s, i); }
  }

  // ---- a run, turn by turn ----

  ghost predicate Begins(s0: State, pre: seq<Step>) { Ready(s0) && IsRun(s0, pre) && NothingOutside(pre) }

  lemma GoesInv(s0: State, pre: seq<Step>)
    requires Begins(s0, pre)
    ensures Inv(s0, After(s0, pre))
  {
    InvStart(s0);
    RunInv(s0, s0, pre);
  }

  lemma ThenTurn(s0: State, pre: seq<Step>, k: nat, first: Pair -> Id) returns (more: seq<Step>)
    requires Begins(s0, pre) && Waits(After(s0, pre), k)
    ensures Begins(s0, more) && Turned(s0, After(s0, pre), After(s0, more), k, first)
  {
    GoesInv(s0, pre);
    var head := Turn(s0, After(s0, pre), k, first);
    more := pre + head;
    E.RunConcat(s0, pre, head);
  }

  lemma ThenCommit(s0: State, pre: seq<Step>, k: nat, first: Pair -> Id) returns (more: seq<Step>)
    requires Begins(s0, pre) && Waits(After(s0, pre), k)
    ensures Begins(s0, more) && CommittedTurn(s0, After(s0, pre), After(s0, more), k, first)
  {
    GoesInv(s0, pre);
    var head := CommittingTurn(s0, After(s0, pre), k, first);
    more := pre + head;
    E.RunConcat(s0, pre, head);
  }

  lemma ThenRest(s0: State, pre: seq<Step>, first: Pair -> Id) returns (more: seq<Step>)
    requires Begins(s0, pre) && Begun(After(s0, pre))
    ensures Completes(s0, more) && Rested(s0, After(s0, pre), After(s0, more), first)
  {
    GoesInv(s0, pre);
    var rest := RestFrom(s0, After(s0, pre), 0, first);
    more := pre + rest;
    E.RunConcat(s0, pre, rest);
  }

  // ---- comparing two complete runs ----

  /** The preferred row of every pair with rows is one of them. */
  ghost predicate PrefersOld(s0: State, first: Pair -> Id) {
    forall q :: HasOld(s0.rows, q) ==> Decided(s0.rows, first, q)
  }

  lemma StaysDecided(s0: State, s: State, first: Pair -> Id, q: Pair)
    requires Ready(s0) && Inv(s0, s) && PrefersOld(s0, first) && HasOld(s0.rows, q)
    ensures Decided(s.rows, first, q)
    ensures Key(first(q), q.1) in s0.rows
      && s.rows[Key(first(q), q.1)].date >= s0.rows[Key(first(q), q.1)].date
  {
    OldStays(s0, s, Key(first(q), q.1), q);
  }

  lemma {:induction false} MaxDate(ds: set<Time>, some: Time) returns (d: Time)
    requires some in ds
    ensures d in ds && forall e :: e in ds ==> e <= d
    decreases |ds|
  {
    d := some;
    if e :| e in ds && e > some {
      d := MaxDate(ds - {some}, e);
      assert forall f :: f in ds ==> f == some || f in ds - {some};
    } else {
      assert forall f :: f in ds ==> f <= some;
    }
  }

  /** A newest of the new entries. */
  lemma NewestNew(s0: State, p: Pair, j: nat, a: nat) returns (m: nat, b: nat)
    requires New(s0, j, a, p)
    ensures New(s0, m, b, p)
    ensures forall k: nat, c: nat :: New(s0, k, c, p) ==> s0.jobs[k].vs[c].date <= s0.jobs[m].vs[b].date
  {
    var ds := set k, c | 0 <= k < |s0.jobs| && 0 <= c < |s0.jobs[k].vs| && New(s0, k, c, p) :: s0.jobs[k].vs[c].date;
    assert s0.jobs[j].vs[a].date in ds;
    var d := MaxDate(ds, s0.jobs[j].vs[a].date);
    var k, c :| 0 <= k < |s0.jobs| && 0 <= c < |s0.jobs[k].vs| && New(s0, k, c, p) && s0.jobs[k].vs[c].date == d;
    m, b := k, c;
    forall k: nat, c: nat | New(s0, k, c, p) ensures s0.jobs[k].vs[c].date <= d { assert s0.jobs[k].vs[c].date in ds; }
  }

  /** A pair without rows is shown on every schedule, or on none. */
  lemma NoOldIsFixed(s0: State, q: Pair)
    requires Ready(s0) && !HasOld(s0.rows, q)
    ensures Rises(s0, q) || Settled(s0, q)
  {
    if j: nat, a: nat :| New(s0, j, a, q) {
      var m, b := NewestNew(s0, q, j, a);
      forall k: nat, c: nat | Of(s0.jobs, k, c, q) ensures KeyOf(s0.jobs[k].vs[c]) !in s0.rows {
        JobFits(s0, s0, k);
        assert !Old(s0.rows, KeyOf(s0.jobs[k].vs[c]), q);
      }
      assert Top(s0, m, b, q);
    }
  }

  lemma UndecidedSame(s0: State, a: seq<Step>, b: seq<Step>, q: Pair)
    requires Ready(s0) && !HasOld(s0.rows, q) && Completes(s0, a) && Completes(s0, b)
    ensures Shown(After(s0, a), q) <==> Shown(After(s0, b), q)
  {
    NoOldIsFixed(s0, q);
    if Rises(s0, q) {
      RisingAlwaysShown(s0, a, q);
      RisingAlwaysShown(s0, b, q);
    } else {
      SettledNeverShown(s0, a, q);
      SettledNeverShown(s0, b, q);
    }
  }

  ghost predicate ShowsMore(s0: State, a: seq<Step>, b: seq<Step>, p: Pair)
    requires IsRun(s0, a) && IsRun(s0, b)
  {
    && (forall q :: Shown(After(s0, b), q) ==> Shown(After(s0, a), q))
    && Shown(After(s0, a), p) && !Shown(After(s0, b), p)
  }

  lemma MoreIsCreated(s0: State, a: seq<Step>, b: seq<Step>, p: Pair)
    requires Ready(s0) && Completes(s0, a) && Completes(s0, b) && ShowsMore(s0, a, b, p)
    ensures After(s0, a).created > After(s0, b).created
  {
    CompleteTotals(s0, a);
    CompleteTotals(s0, b);
    var x, y := DedupOrder.Pairs(After(s0, a).seen), DedupOrder.Pairs(After(s0, b).seen);
    forall q ensures q in x <==> Shown(After(s0, a), q) { PairsAreShown(After(s0, a), q); }
    forall q ensures q in y <==> Shown(After(s0, b), q) { PairsAreShown(After(s0, b), q); }
    assert y <= x - {p};
    Fewer(y, x - {p});
  }

  lemma PairsAreShown(s: State, q: Pair)
    ensures q in DedupOrder.Pairs(s.seen) <==> Shown(s, q)
  {
    PairIsShown(s, q.0, q.1);
    assert q == (q.0, q.1);
  }

  lemma PairIsShown(s: State, user: Id, h: Hash)
    ensures (user, h) in DedupOrder.Pairs(s.seen) <==> h in DedupOrder.SeenBy(s.seen, user)
  {
  }

  lemma Fewer<T>(y: set<T>, x: set<T>)
    requires y <= x
    ensures |y| <= |x|
  {
    assert x == y + (x - y);
  }

  // ---- two runs that differ in one listing ----

  /** After `pre` job `n` waits with an entry newer than a row of feed `g`, and nobody beats the preferred one. */
  ghost predicate CanFlip(s0: State, s: State, p: Pair, first: Pair -> Id, n: nat, x: nat, g: Id) {
    && Begun(s) && PrefersOld(s0, first) && HasOld(s0.rows, p) && Waits(s, n) && New(s0, n, x, p) && !Shown(s, p)
    && Old(s.rows, Key(g, p.1), p) && s0.jobs[n].vs[x].date > s.rows[Key(g, p.1)].date
    && Capped(s0, s, p, first(p))
  }

  /** The row of the feed is as new as every new entry of the pair. */
  ghost predicate Capped(s0: State, s: State, p: Pair, g: Id) {
    var key := Key(g, p.1);
    Old(s.rows, key, p) && forall k: nat, b: nat :: New(s0, k, b, p) ==> s0.jobs[k].vs[b].date <= s.rows[key].date
  }

  lemma CappedNotBeaten(s0: State, s: State, p: Pair, first: Pair -> Id, k: nat)
    requires Capped(s0, s, p, first(p))
    ensures !Beats(s0, s.rows, k, first, p)
  {
  }

  /** The listing that differs. */
  ghost function Instead(first: Pair -> Id, p: Pair, g: Id): Pair -> Id { (q: Pair) => if q == p then g else first(q) }

  lemma Flip(s0: State, pre: seq<Step>, p: Pair, first: Pair -> Id, n: nat, x: nat, g: Id)
    returns (a: seq<Step>, b: seq<Step>)
    requires Begins(s0, pre) && CanFlip(s0, After(s0, pre), p, first, n, x, g)
    ensures Completes(s0, a) && Completes(s0, b) && ShowsMore(s0, a, b, p)
  {
    GoesInv(s0, pre);
    b := ThenRest(s0, pre, first);
    var more := ThenTurn(s0, pre, n, Instead(first, p, g));
    a := ThenRest(s0, more, first);
    forall q | !HasOld(s0.rows, q) ensures Shown(After(s0, a), q) <==> Shown(After(s0, b), q) {
      UndecidedSame(s0, a, b, q);
    }
    FlipCompares(s0, After(s0, pre), After(s0, more), After(s0, b), After(s0, a), p, first, n, x, g);
  }

  lemma FlipCompares(s0: State, s: State, t: State, u: State, v: State, p: Pair, first: Pair -> Id, n: nat, x: nat,
      g: Id)
    requires Ready(s0) && Inv(s0, s) && CanFlip(s0, s, p, first, n, x, g) && Turned(s0, s, t, n, Instead(first, p, g))
    requires Rested(s0, s, u, first) && Rested(s0, t, v, first)
    requires forall q :: !HasOld(s0.rows, q) ==> (Shown(v, q) <==> Shown(u, q))
    ensures (forall q :: Shown(u, q) ==> Shown(v, q)) && Shown(v, p) && !Shown(u, p)
  {
    forall k: nat ensures !Beats(s0, s.rows, k, first, p) { CappedNotBeaten(s0, s, p, first, k); }
    FlipShows(s0, s, t, p, first, n, x, g);
    forall q | q == p || Shown(u, q) ensures Shown(v, q) {
      if HasOld(s0.rows, q) {
        StaysDecided(s0, s, first, q);
        FlipKeeps(s0, s, t, p, first, n, x, g, q);
      }
    }
  }

  lemma FlipShows(s0: State, s: State, t: State, p: Pair, first: Pair -> Id, n: nat, x: nat, g: Id)
    requires CanFlip(s0, s, p, first, n, x, g) && Turned(s0, s, t, n, Instead(first, p, g))
    ensures Shown(t, p) && Decided(t.rows, first, p) && Decided(s.rows, first, p)
  {
    assert Decided(s.rows, Instead(first, p, g), p);
    assert Beats(s0, s.rows, n, Instead(first, p, g), p);
  }

  lemma FlipKeeps(s0: State, s: State, t: State, p: Pair, first: Pair -> Id, n: nat, x: nat, g: Id, q: Pair)
    requires CanFlip(s0, s, p, first, n, x, g) && Turned(s0, s, t, n, Instead(first, p, g)) && Decided(s.rows, first, q)
    requires q == p || Shown(s, q) || RestBeats(s0, s, 0, first, q)
    ensures Decided(t.rows, first, q) && (Shown(t, q) || RestBeats(s0, t, 0, first, q))
  {
    if q == p {
      FlipShows(s0, s, t, p, first, n, x, g);
    } else {
      assert Decided(s.rows, Instead(first, p, g), q);
      if !Shown(s, q) {
        var k: nat :| 0 <= k && Waits(s, k) && Beats(s0, s.rows, k, first, q);
        if k == n { assert Beats(s0, s.rows, n, Instead(first, p, g), q); } else { assert Waits(t, k); }
      }
    }
  }

  // ---- reaching a row that caps the new entries ----

  ghost function SomeOld(rows: Rows, q: Pair): Id {
    if HasOld(rows, q) then var key :| Old(rows, key, q); key.feed else 0
  }

  /** Some row of every pair, and the one of feed `g` for `p`. */
  ghost function Preferring(rows: Rows, p: Pair, g: Id): Pair -> Id {
    (q: Pair) => if q == p then g else SomeOld(rows, q)
  }

  lemma PreferringOld(s0: State, p: Pair, g: Id)
    requires Old(s0.rows, Key(g, p.1), p)
    ensures PrefersOld(s0, Preferring(s0.rows, p, g))
  {
    forall q | HasOld(s0.rows, q) ensures Decided(s0.rows, Preferring(s0.rows, p, g), q) {
      if q != p {
        var key :| Old(s0.rows, key, q) && SomeOld(s0.rows, q) == key.feed;
        assert Key(key.feed, q.1) == key;
      }
    }
  }

  /** The feed's row, or the entry the batch has for it, is as new as every new entry of the pair. */
  ghost predicate CanCap(s0: State, p: Pair, g: Id, d: Time) {
    var key := Key(g, p.1);
    && Old(s0.rows, key, p)
    && (forall k: nat, b: nat :: New(s0, k, b, p) ==> s0.jobs[k].vs[b].date <= d)
    && (s0.rows[key].date >= d || exists k: nat, c: nat :: Caps(s0, p, key, d, k, c))
  }

  ghost predicate Caps(s0: State, p: Pair, key: Key, d: Time, k: nat, c: nat) {
    Of(s0.jobs, k, c, p) && KeyOf(s0.jobs[k].vs[c]) == key && s0.jobs[k].vs[c].date >= d
  }

  /** Only the job of feed `g` has moved, and it has committed. */
  ghost predicate OnlyCommitted(s0: State, s: State, g: Id) {
    |s.jobs| == |s0.jobs| && forall j :: 0 <= j < |s.jobs| ==>
      s.jobs[j].phase.Idle? || (s.jobs[j].phase.Committed? && s0.jobs[j].feed == g)
  }

  lemma NoneShownYet(s0: State, q: Pair)
    requires Ready(s0)
    ensures !Shown(s0, q)
  {
  }

  lemma AllIdle(s0: State, g: Id)
    requires Ready(s0)
    ensures OnlyCommitted(s0, s0, g) && Begun(s0)
  {
    assert forall j :: 0 <= j < |s0.jobs| ==> StartsIdle(s0.jobs[j]);
  }

  /** A job with a row of the pair has no new entry of it. */
  lemma OwnerBeatsNothing(s0: State, rows: Rows, first: Pair -> Id, p: Pair, k: nat, c: nat)
    requires Ready(s0) && Of(s0.jobs, k, c, p) && KeyOf(s0.jobs[k].vs[c]) in s0.rows
    ensures !Beats(s0, rows, k, first, p)
  {
    JobFits(s0, s0, k);
    assert forall a: nat :: Of(s0.jobs, k, a, p) ==> a == c;
  }

  lemma CommitCaps(s0: State, t: State, p: Pair, g: Id, d: Time, k: nat, c: nat)
    requires Ready(s0) && Inv(s0, t) && CanCap(s0, p, g, d) && Caps(s0, p, Key(g, p.1), d, k, c)
    requires k < |t.jobs| && t.jobs[k].phase.Committed?
    ensures Capped(s0, t, p, g)
  {
    OldStays(s0, t, Key(g, p.1), p);
    assert RowIs(s0.rows, t, Key(g, p.1));
    assert WroteAt(t.jobs, Key(g, p.1), k, c);
  }

  lemma Cap(s0: State, p: Pair, g: Id, d: Time, first: Pair -> Id) returns (pre: seq<Step>)
    requires Ready(s0) && PrefersOld(s0, first) && CanCap(s0, p, g, d)
    ensures Begins(s0, pre)
    ensures var s := After(s0, pre); OnlyCommitted(s0, s, g) && !Shown(s, p) && Capped(s0, s, p, g)
  {
    AllIdle(s0, g);
    NoneShownYet(s0, p);
    if s0.rows[Key(g, p.1)].date >= d {
      pre := [];
    } else {
      var k: nat, c: nat :| Caps(s0, p, Key(g, p.1), d, k, c);
      assert After(s0, []) == s0;
      pre := ThenCommit(s0, [], k, first);
      GoesInv(s0, pre);
      JobFits(s0, s0, k);
      OwnerBeatsNothing(s0, s0.rows, first, p, k, c);
      assert HasOld(s0.rows, p);
      CommitCaps(s0, After(s0, pre), p, g, d, k, c);
    }
  }

  // ---- an older row of another feed ----

  lemma OthersUntouched(s0: State, s: State, g: Id, key: Key)
    requires Ready(s0) && Inv(s0, s) && OnlyCommitted(s0, s, g) && key.feed != g
    ensures SameRow(s0.rows, s.rows, key)
  {
    assert RowIs(s0.rows, s, key);
    forall j: nat, a: nat ensures !WroteAt(s.jobs, key, j, a) {
      if C.Entry(s.jobs, j, a) {
        JobFits(s0, s, j);
        assert s.jobs[j].vs[a].feedID == s.jobs[j].feed == s0.jobs[j].feed;
      }
    }
  }

  /** A new entry's job is not the one of a feed with a row. */
  lemma NewIsOther(s0: State, s: State, p: Pair, n: nat, x: nat, g: Id)
    requires Ready(s0) && New(s0, n, x, p) && Old(s0.rows, Key(g, p.1), p) && OnlyCommitted(s0, s, g)
    ensures Waits(s, n)
  {
    JobFits(s0, s0, n);
    assert KeyOf(s0.jobs[n].vs[x]) == Key(s0.jobs[n].feed, p.1);
  }

  /** Listed first or not, an older row of another feed than the capping one makes the difference. */
  lemma OlderRow(s0: State, p: Pair, g: Id, d: Time, n: nat, x: nat, other: Id) returns (a: seq<Step>, b: seq<Step>)
    requires Ready(s0) && CanCap(s0, p, g, d) && New(s0, n, x, p) && other != g
    requires Old(s0.rows, Key(other, p.1), p) && s0.jobs[n].vs[x].date > s0.rows[Key(other, p.1)].date
    ensures Completes(s0, a) && Completes(s0, b) && ShowsMore(s0, a, b, p)
  {
    var first := Preferring(s0.rows, p, g);
    PreferringOld(s0, p, g);
    var pre := Cap(s0, p, g, d, first);
    GoesInv(s0, pre);
    OthersUntouched(s0, After(s0, pre), g, Key(other, p.1));
    NewIsOther(s0, After(s0, pre), p, n, x, g);
    a, b := Flip(s0, pre, p, first, n, x, other);
  }

  // ---- new entries of different dates ----

  lemma CappedStays(s0: State, s: State, t: State, p: Pair, g: Id)
    requires Ready(s0) && Inv(s0, s) && Inv(s0, t) && Capped(s0, s, p, g)
    requires forall j :: 0 <= j < |s.jobs| && s.jobs[j].phase.Committed? ==> t.jobs[j].phase.Committed?
    ensures Capped(s0, t, p, g)
  {
    var key := Key(g, p.1);
    var k, b, wrote := WhoWrote(s0, s, key);
    assert RowIs(s0.rows, t, key);
    if wrote { assert WroteAt(t.jobs, key, k, b); } else { OldStays(s0, t, key, p); }
  }

  lemma NewIsStored(s0: State, t: State, p: Pair, k: nat, b: nat)
    requires Ready(s0) && Inv(s0, t) && New(s0, k, b, p) && k < |t.jobs| && t.jobs[k].phase.Committed?
    ensures var key := Key(s0.jobs[k].feed, p.1); Old(t.rows, key, p) && t.rows[key].date == s0.jobs[k].vs[b].date
  {
    JobFits(s0, s0, k);
    var key := KeyOf(s0.jobs[k].vs[b]);
    assert RowIs(s0.rows, t, key);
    assert WroteAt(t.jobs, key, k, b);
  }

  /** After the older one is committed, the newer one can find it. */
  lemma OlderNewFlips(s0: State, s: State, t: State, p: Pair, g: Id, first: Pair -> Id, m: nat, y: nat, n: nat, x: nat)
    requires Ready(s0) && Inv(s0, s) && Inv(s0, t) && New(s0, m, y, p) && New(s0, n, x, p)
    requires s0.jobs[m].vs[y].date < s0.jobs[n].vs[x].date
    requires PrefersOld(s0, first) && HasOld(s0.rows, p) && first(p) == g
    requires OnlyCommitted(s0, s, g) && Waits(s, n) && !Shown(s, p) && Capped(s0, s, p, g)
    requires CommittedTurn(s0, s, t, m, first)
    ensures CanFlip(s0, t, p, first, n, x, s0.jobs[m].feed)
  {
    CappedNotBeaten(s0, s, p, first, m);
    CappedStays(s0, s, t, p, g);
    NewIsStored(s0, t, p, m, y);
    JobFits(s0, s0, m);
    assert m != n;
  }

  /** The older of two new entries, stored first and then listed first or not, makes the difference. */
  lemma OlderNew(s0: State, p: Pair, g: Id, d: Time, m: nat, y: nat, n: nat, x: nat)
    returns (a: seq<Step>, b: seq<Step>)
    requires Ready(s0) && CanCap(s0, p, g, d) && New(s0, m, y, p) && New(s0, n, x, p)
    requires s0.jobs[m].vs[y].date < s0.jobs[n].vs[x].date
    ensures Completes(s0, a) && Completes(s0, b) && ShowsMore(s0, a, b, p)
  {
    var first := Preferring(s0.rows, p, g);
    PreferringOld(s0, p, g);
    var pre := Cap(s0, p, g, d, first);
    NewIsOther(s0, After(s0, pre), p, m, y, g);
    NewIsOther(s0, After(s0, pre), p, n, x, g);
    var more := ThenCommit(s0, pre, m, first);
    GoesInv(s0, pre);
    GoesInv(s0, more);
    OlderNewFlips(s0, After(s0, pre), After(s0, more), p, g, first, m, y, n, x);
    a, b := Flip(s0, more, p, first, n, x, s0.jobs[m].feed);
  }

  // ---- a row that the batch makes newer ----

  lemma SameCommits(s0: State, s: State, t: State, key: Key)
    requires Ready(s0) && Inv(s0, s) && Inv(s0, t)
    requires forall j :: 0 <= j < |s.jobs| ==> (s.jobs[j].phase.Committed? <==> t.jobs[j].phase.Committed?)
    ensures SameRow(s.rows, t.rows, key)
  {
    assert RowIs(s0.rows, s, key) && RowIs(s0.rows, t, key);
    assert forall j: nat, a: nat :: WroteAt(s.jobs, key, j, a) <==> WroteAt(t.jobs, key, j, a);
    if j: nat, a: nat :| WroteAt(s.jobs, key, j, a) { assert WroteAt(t.jobs, key, j, a); }
  }

  /**
   `t1`: job `n` has filtered. `t2`: then the owner `k` of the row has committed. `u1`: the owner has
   committed at once.
   */
  ghost predicate Swapped(s0: State, t1: State, t2: State, u1: State, n: nat, k: nat, first: Pair -> Id) {
    && k != n && Turned(s0, s0, t1, n, first) && CommittedTurn(s0, t1, t2, k, first)
      && CommittedTurn(s0, s0, u1, k, first)
    && Inv(s0, t1) && Inv(s0, t2) && Inv(s0, u1)
  }

  lemma SwapSame(s0: State, t1: State, t2: State, u1: State, n: nat, k: nat, first: Pair -> Id, key: Key)
    requires Ready(s0) && Swapped(s0, t1, t2, u1, n, k, first)
    ensures SameRow(u1.rows, t2.rows, key)
  {
    AllIdle(s0, 0);
    forall j | 0 <= j < |u1.jobs| ensures u1.jobs[j].phase.Committed? <==> t2.jobs[j].phase.Committed? {
      assert StartsIdle(s0.jobs[j]);
    }
    SameCommits(s0, u1, t2, key);
  }

  /** Who is shown when the owner commits first is shown when job `n` reads before. */
  lemma SwapKeeps(s0: State, t1: State, t2: State, u1: State, n: nat, k: nat, first: Pair -> Id, q: Pair)
    requires Ready(s0) && Swapped(s0, t1, t2, u1, n, k, first) && PrefersOld(s0, first) && HasOld(s0.rows, q)
    requires Shown(u1, q) || RestBeats(s0, u1, 0, first, q)
    ensures Shown(t2, q) || RestBeats(s0, t2, 0, first, q)
  {
    NoneShownYet(s0, q);
    StaysDecided(s0, u1, first, q);
    assert Decided(s0.rows, first, q) && Decided(t1.rows, first, q);
    if !Shown(u1, q) {
      var i: nat :| 0 <= i && Waits(u1, i) && Beats(s0, u1.rows, i, first, q);
      if i == n {
        assert Beats(s0, s0.rows, n, first, q);
      } else {
        SwapSame(s0, t1, t2, u1, n, k, first, Key(first(q), q.1));
        assert Waits(t2, i) && Beats(s0, t2.rows, i, first, q);
      }
    }
  }

  lemma SwapCompares(s0: State, t1: State, t2: State, u1: State, v: State, u: State,
      p: Pair, g: Id, n: nat, x: nat, k: nat, c: nat, first: Pair -> Id)
    requires Ready(s0) && Swapped(s0, t1, t2, u1, n, k, first) && PrefersOld(s0, first) && first(p) == g
    requires Rested(s0, t2, v, first) && Rested(s0, u1, u, first)
    requires forall q :: !HasOld(s0.rows, q) ==> (Shown(v, q) <==> Shown(u, q))
    requires New(s0, n, x, p) && Old(s0.rows, Key(g, p.1), p) && s0.jobs[n].vs[x].date > s0.rows[Key(g, p.1)].date
    requires Of(s0.jobs, k, c, p) && KeyOf(s0.jobs[k].vs[c]) == Key(g, p.1) && Capped(s0, u1, p, g)
    ensures (forall q :: Shown(u, q) ==> Shown(v, q)) && Shown(v, p) && !Shown(u, p)
  {
    assert HasOld(s0.rows, p);
    NoneShownYet(s0, p);
    StaysDecided(s0, u1, first, p);
    StaysDecided(s0, t2, first, p);
    assert Beats(s0, s0.rows, n, first, p);
    OwnerBeatsNothing(s0, s0.rows, first, p, k, c);
    forall i: nat ensures !Beats(s0, u1.rows, i, first, p) { CappedNotBeaten(s0, u1, p, first, i); }
    forall q | Shown(u, q) ensures Shown(v, q) {
      if HasOld(s0.rows, q) {
        StaysDecided(s0, u1, first, q);
        StaysDecided(s0, t2, first, q);
        SwapKeeps(s0, t1, t2, u1, n, k, first, q);
      }
    }
  }

  /** A row older than a new entry that the batch makes newer: reading before or after its commit matters. */
  lemma NewerOwner(s0: State, p: Pair, g: Id, d: Time, n: nat, x: nat, k: nat, c: nat)
    returns (a: seq<Step>, b: seq<Step>)
    requires Ready(s0) && CanCap(s0, p, g, d) && Caps(s0, p, Key(g, p.1), d, k, c) && New(s0, n, x, p)
    requires s0.jobs[n].vs[x].date > s0.rows[Key(g, p.1)].date
    ensures Completes(s0, a) && Completes(s0, b) && ShowsMore(s0, a, b, p)
  {
    var first := Preferring(s0.rows, p, g);
    PreferringOld(s0, p, g);
    AllIdle(s0, g);
    assert After(s0, []) == s0;
    OwnerIsOther(s0, p, g, n, x, k, c);
    var before := ThenTurn(s0, [], n, first);
    var after := ThenCommit(s0, before, k, first);
    a := ThenRest(s0, after, first);
    var at := ThenCommit(s0, [], k, first);
    b := ThenRest(s0, at, first);
    GoesInv(s0, before);
    GoesInv(s0, after);
    GoesInv(s0, at);
    CommitCaps(s0, After(s0, at), p, g, d, k, c);
    forall q | !HasOld(s0.rows, q) ensures Shown(After(s0, a), q) <==> Shown(After(s0, b), q) {
      UndecidedSame(s0, a, b, q);
    }
    SwapCompares(s0, After(s0, before), After(s0, after), After(s0, at), After(s0, a), After(s0, b),
      p, g, n, x, k, c, first);
  }

  lemma OwnerIsOther(s0: State, p: Pair, g: Id, n: nat, x: nat, k: nat, c: nat)
    requires Ready(s0) && New(s0, n, x, p) && Old(s0.rows, Key(g, p.1), p)
    requires Of(s0.jobs, k, c, p) && KeyOf(s0.jobs[k].vs[c]) == Key(g, p.1)
    ensures k != n && Waits(s0, k) && Waits(s0, n)
  {
    JobFits(s0, s0, k);
    assert StartsIdle(s0.jobs[k]) && StartsIdle(s0.jobs[n]);
    assert forall a: nat :: Of(s0.jobs, k, a, p) ==> a == c;
  }

  // ---- exactly ----

  /** What keeps a newest new entry from rising: a row, or what the batch stores over one. */
  lemma Cappable(s0: State, p: Pair, m: nat, y: nat) returns (g: Id)
    requires Ready(s0) && New(s0, m, y, p) && !Rises(s0, p)
    requires forall k: nat, c: nat :: New(s0, k, c, p) ==> s0.jobs[k].vs[c].date <= s0.jobs[m].vs[y].date
    ensures CanCap(s0, p, g, s0.jobs[m].vs[y].date)
  {
    var d := s0.jobs[m].vs[y].date;
    assert !Top(s0, m, y, p);
    if key :| Old(s0.rows, key, p) && s0.rows[key].date >= d {
      g := key.feed;
      assert Key(g, p.1) == key;
    } else {
      var k: nat, c: nat :| Of(s0.jobs, k, c, p) && KeyOf(s0.jobs[k].vs[c]) in s0.rows && s0.jobs[k].vs[c].date >= d;
      JobFits(s0, s0, k);
      g := s0.jobs[k].feed;
      assert KeyOf(s0.jobs[k].vs[c]) == Key(g, p.1);
      assert Caps(s0, p, Key(g, p.1), d, k, c);
    }
  }

  /** A pair that neither rises nor is settled is shown on one schedule and not on another. */
  lemma OtherwiseVaries(s0: State, p: Pair) returns (a: seq<Step>, b: seq<Step>)
    requires Ready(s0) && !Rises(s0, p) && !Settled(s0, p)
    ensures Completes(s0, a) && Completes(s0, b) && ShowsMore(s0, a, b, p)
  {
    var j: nat, z: nat :| New(s0, j, z, p);
    var m, y := NewestNew(s0, p, j, z);
    var d := s0.jobs[m].vs[y].date;
    var g := Cappable(s0, p, m, y);
    assert HasOld(s0.rows, p);
    if n: nat, x: nat, k: nat, c: nat :|
        New(s0, n, x, p) && New(s0, k, c, p) && s0.jobs[n].vs[x].date < s0.jobs[k].vs[c].date {
      a, b := OlderNew(s0, p, g, d, n, x, k, c);
    } else {
      var n: nat, x: nat :| New(s0, n, x, p) && !Covered(s0.rows, p, s0.jobs[n].vs[x].date);
      var key :| Old(s0.rows, key, p) && s0.jobs[n].vs[x].date > s0.rows[key].date;
      if key.feed != g {
        assert Key(key.feed, p.1) == key;
        a, b := OlderRow(s0, p, g, d, n, x, key.feed);
      } else {
        assert Key(g, p.1) == key && s0.rows[key].date < d;
        var k: nat, c: nat :| Caps(s0, p, key, d, k, c);
        a, b := NewerOwner(s0, p, g, d, n, x, k, c);
      }
    }
  }

  /** There is a complete run. */
  lemma SomeRunCompletes(s0: State) returns (steps: seq<Step>)
    requires Ready(s0)
    ensures Completes(s0, steps)
  {
    AllIdle(s0, 0);
    assert After(s0, []) == s0;
    steps := ThenRest(s0, [], q => SomeOld(s0.rows, q));
  }

  /** All complete runs have the same totals. */
  ghost predicate SameTotals(s0: State) {
    forall a: seq<Step>, b: seq<Step> :: Completes(s0, a) && Completes(s0, b) ==>
      && After(s0, a).created == After(s0, b).created
      && C.DedupSum(After(s0, a).jobs) == C.DedupSum(After(s0, b).jobs)
  }

  /** The pairs of the batch that rise. */
  ghost function RisingPairs(s0: State): set<Pair> {
    set q | q in C.BatchPairs(s0.jobs) && Rises(s0, q)
  }

  /** When every pair rises or is settled, what every complete run counts. */
  lemma FixedTotals(s0: State, steps: seq<Step>)
    requires Ready(s0) && (forall q: Pair :: Rises(s0, q) || Settled(s0, q)) && Completes(s0, steps)
    ensures After(s0, steps).created == |RisingPairs(s0)|
    ensures C.DedupSum(After(s0, steps).jobs) == NewSum(s0.rows, s0.jobs) - |RisingPairs(s0)|
  {
    var t := After(s0, steps);
    CompleteTotals(s0, steps);
    forall q: Pair ensures q in DedupOrder.Pairs(t.seen) <==> q in RisingPairs(s0) {
      PairsAreShown(t, q);
      if Rises(s0, q) {
        RisingAlwaysShown(s0, steps, q);
        var j: nat, a: nat :| Top(s0, j, a, q);
        assert New(s0, j, a, q) && q == (s0.jobs[j].user, s0.jobs[j].vs[a].hash);
      } else {
        SettledNeverShown(s0, steps, q);
      }
    }
    assert DedupOrder.Pairs(t.seen) == RisingPairs(s0);
  }

  /**
   Every schedule of a clean, unforced batch of different feeds counts the same if and only if every
   pair rises or is settled, which can be read off the table and the entries before it starts.
   */
  lemma SameTotalsIff(s0: State)
    requires Ready(s0)
    ensures SameTotals(s0) <==> forall q: Pair :: Rises(s0, q) || Settled(s0, q)
  {
    if forall q: Pair :: Rises(s0, q) || Settled(s0, q) {
      forall a: seq<Step>, b: seq<Step> | Completes(s0, a) && Completes(s0, b)
        ensures After(s0, a).created == After(s0, b).created
        ensures C.DedupSum(After(s0, a).jobs) == C.DedupSum(After(s0, b).jobs)
      {
        FixedTotals(s0, a);
        FixedTotals(s0, b);
      }
    } else {
      var p: Pair :| !Rises(s0, p) && !Settled(s0, p);
      var a, b := OtherwiseVaries(s0, p);
      MoreIsCreated(s0, a, b, p);
      assert !SameTotals(s0);
    }
  }
}
