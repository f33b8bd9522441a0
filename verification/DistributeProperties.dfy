/**
 What the distributed order of a batch promises: every job once (exactly when the empty host
 does not outlast another one), one host's jobs newest first, and a fair share for every host
 at every moment.
 */
module DistributeProperties {
  import opened Prelude
  import opened Distribute

  predicate OfHost(jobs: seq<Job>, x: nat, h: string) { x < |jobs| && HostKey(jobs[x]) == h }

  /** The jobs of host `h` among the emitted ones, in order of emission. */
  function Sub(jobs: seq<Job>, em: seq<nat>, h: string): seq<nat> {
    if em == [] then [] else
    var last := |em| - 1;
    Sub(jobs, em[..last], h) + if OfHost(jobs, em[last], h) then [em[last]] else []
  }

  /** The first `n` jobs of the list of host `h`, read backwards. */
  ghost function Picks(g: Lists, h: string, n: nat): (s: seq<nat>)
    ensures |s| == n && forall k :: 0 <= k < n ==> s[k] == Pick(g, h, k)
  {
    if n == 0 then [] else Picks(g, h, n - 1) + [Pick(g, h, n - 1)]
  }

  /** These are the jobs of host `h` among `em`. */
  ghost predicate Gives(jobs: seq<Job>, em: seq<nat>, g: Lists, h: string, n: nat) {
    Sub(jobs, em, h) == Picks(g, h, n)
  }

  lemma PickIsOfHost(jobs: seq<Job>, g: Lists, h: string, r: nat)
    requires IsGrouping(jobs, g) && r < Size(g, h)
    ensures OfHost(jobs, Pick(g, h, r), h)
  {
    GroupMembers(jobs, h);
    assert g[h] == Group(jobs, h);
  }

  lemma {:induction false} SubConcat(jobs: seq<Job>, a: seq<nat>, b: seq<nat>, h: string)
    ensures Sub(jobs, a + b, h) == Sub(jobs, a, h) + Sub(jobs, b, h)
  {
    if b == [] {
      assert a + b == a;
    } else {
      var last := |b| - 1;
      assert (a + b)[..|a + b| - 1] == a + b[..last];
      SubConcat(jobs, a, b[..last], h);
    }
  }

  lemma {:induction false} SubRound(jobs: seq<Job>, g: Lists, live: seq<string>, r: nat, h: string)
    requires IsGrouping(jobs, g) && Distinct(live) && forall x :: x in live ==> r < Size(g, x)
    ensures Sub(jobs, RoundJobs(g, live, r), h) == if h in live then [Pick(g, h, r)] else []
  {
    if live != [] {
      var last := |live| - 1;
      var init := live[..last];
      assert live == init + [live[last]];
      assert live[last] !in init;
      SubRound(jobs, g, init, r, h);
      PickIsOfHost(jobs, g, live[last], r);
      assert RoundJobs(g, live, r)[..last] == RoundJobs(g, init, r);
    }
  }

  lemma SubLive(jobs: seq<Job>, g: Lists, order: seq<string>, r: nat, i: nat, h: string)
    requires IsGrouping(jobs, g) && HostOrder(g, order) && i <= |LiveHosts(g, order, r)|
    ensures Sub(jobs, RoundJobs(g, LiveHosts(g, order, r)[..i], r), h)
         == if h in LiveHosts(g, order, r)[..i] then [Pick(g, h, r)] else []
  {
    var live := LiveHosts(g, order, r);
    LiveDistinct(g, Least(g, order), order, r);
    forall x | x in live ensures r < Size(g, x) { QuotaBounds(g, order, x); }
    assert forall x :: x in live[..i] ==> x in live;
    SubRound(jobs, g, live[..i], r, h);
  }

  function Min(a: nat, b: nat): nat { if a < b then a else b }

  /** How many jobs host `h` has given when `i` hosts of round `r` have been visited. */
  ghost function Progress(g: Lists, order: seq<string>, r: nat, i: nat, h: string): nat
    requires i <= |LiveHosts(g, order, r)|
  {
    if h in LiveHosts(g, order, r)[..i] then r + 1 else Min(r, Quota(g, Least(g, order), h))
  }

  lemma GivesOneMore(jobs: seq<Job>, a: seq<nat>, b: seq<nat>, g: Lists, h: string, n: nat, more: bool)
    requires Gives(jobs, a, g, h, n) && Sub(jobs, b, h) == if more then [Pick(g, h, n)] else []
    ensures Gives(jobs, a + b, g, h, if more then n + 1 else n)
  {
    SubConcat(jobs, a, b, h);
  }

  /** What host `h` has given when `i` hosts of round `r` have been visited. */
  ghost predicate GivesUpTo(jobs: seq<Job>, g: Lists, order: seq<string>, r: nat, i: nat, h: string) {
    && i <= |LiveHosts(g, order, r)|
    && Gives(jobs, Rounds(g, order, r) + RoundJobs(g, LiveHosts(g, order, r)[..i], r), g, h,
      Progress(g, order, r, i, h))
  }

  lemma {:induction false} SubRounds(jobs: seq<Job>, g: Lists, order: seq<string>, r: nat, h: string)
    requires IsGrouping(jobs, g) && HostOrder(g, order) && h in order
    ensures Gives(jobs, Rounds(g, order, r), g, h, Min(r, Quota(g, Least(g, order), h)))
    decreases r, 0
  {
    if r > 0 {
      SubPrefix(jobs, g, order, r - 1, |LiveHosts(g, order, r - 1)|, h);
      RoundGiven(jobs, g, order, r, h);
    } else {
      assert Sub(jobs, [], h) == [];
    }
  }

  /** A round that was visited completely. */
  lemma RoundGiven(jobs: seq<Job>, g: Lists, order: seq<string>, r: nat, h: string)
    requires r > 0 && h in order && GivesUpTo(jobs, g, order, r - 1, |LiveHosts(g, order, r - 1)|, h)
    ensures Gives(jobs, Rounds(g, order, r), g, h, Min(r, Quota(g, Least(g, order), h)))
  {
    var live := LiveHosts(g, order, r - 1);
    assert live[..|live|] == live;
    assert Progress(g, order, r - 1, |live|, h) == Min(r, Quota(g, Least(g, order), h));
    RoundsStep(g, order, r - 1);
  }

  lemma {:induction false} SubPrefix(jobs: seq<Job>, g: Lists, order: seq<string>, r: nat, i: nat, h: string)
    requires IsGrouping(jobs, g) && HostOrder(g, order) && i <= |LiveHosts(g, order, r)| && h in order
    ensures GivesUpTo(jobs, g, order, r, i, h)
    ensures Progress(g, order, r, i, h) <= Quota(g, Least(g, order), h)
    decreases r, 1
  {
    var visited := LiveHosts(g, order, r)[..i];
    assert h in visited ==> h in LiveHosts(g, order, r);
    SubRounds(jobs, g, order, r, h);
    SubLive(jobs, g, order, r, i, h);
    GivesOneMore(jobs, Rounds(g, order, r), RoundJobs(g, visited, r), g, h, Min(r, Quota(g, Least(g, order), h)),
      h in visited);
  }

  // ---- every prefix of the emission stops inside some round ----

  lemma {:induction false} RoundPrefix(g: Lists, live: seq<string>, r: nat, i: nat)
    requires i <= |live|
    ensures RoundJobs(g, live, r)[..i] == RoundJobs(g, live[..i], r)
  {
    if i == |live| {
      assert live[..i] == live;
    } else {
      var last := |live| - 1;
      RoundPrefix(g, live[..last], r, i);
      assert live[..last][..i] == live[..i];
    }
  }

  lemma TakeOfConcat<T>(a: seq<T>, b: seq<T>, p: nat)
    requires p <= |a| + |b|
    ensures (a + b)[..p] == if p <= |a| then a[..p] else a + b[..p - |a|]
  {
  }

  lemma {:induction false} PrefixInRound(g: Lists, order: seq<string>, last: nat, p: nat) returns (r: nat, i: nat)
    requires p <= |Rounds(g, order, last)|
    ensures i <= |LiveHosts(g, order, r)|
    ensures Rounds(g, order, last)[..p] == Rounds(g, order, r) + RoundJobs(g, LiveHosts(g, order, r)[..i], r)
  {
    if last == 0 {
      r, i := 0, 0;
      assert LiveHosts(g, order, 0)[..0] == [];
    } else {
      var before, live := Rounds(g, order, last - 1), LiveHosts(g, order, last - 1);
      RoundsStep(g, order, last - 1);
      TakeOfConcat(before, RoundJobs(g, live, last - 1), p);
      if p <= |before| {
        r, i := PrefixInRound(g, order, last - 1, p);
      } else {
        r, i := last - 1, p - |before|;
        RoundPrefix(g, live, r, i);
      }
    }
  }

  // ---- the promises ----

  /** At every prefix, a host's emitted jobs are its input list read backwards so far. */
  lemma HostJobsComeReversed(jobs: seq<Job>, g: Lists, order: seq<string>, p: nat, h: string)
    requires IsGrouping(jobs, g) && HostOrder(g, order) && p <= |Emission(g, order)| && h in order
    ensures var sub := Sub(jobs, Emission(g, order)[..p], h);
      |sub| <= Size(g, h) && forall k :: 0 <= k < |sub| ==> sub[k] == g[h][Size(g, h) - 1 - k]
  {
    var r, i := PrefixInRound(g, order, LastRound(g, order), p);
    SubPrefix(jobs, g, order, r, i, h);
    QuotaBounds(g, order, h);
  }

  /** How many jobs host `h` has among the first `p` emitted ones. */
  ghost function Given(jobs: seq<Job>, g: Lists, order: seq<string>, p: nat, h: string): nat
    requires p <= |Emission(g, order)|
  {
    |Sub(jobs, Emission(g, order)[..p], h)|
  }

  /** At every prefix, two hosts that still take part differ by at most one emitted job. */
  lemma FairShare(jobs: seq<Job>, g: Lists, order: seq<string>, p: nat, a: string, b: string)
    requires IsGrouping(jobs, g) && HostOrder(g, order) && p <= |Emission(g, order)| && a in order && b in order
    ensures Given(jobs, g, order, p, a) < Quota(g, Least(g, order), a)
      && Given(jobs, g, order, p, b) < Quota(g, Least(g, order), b)
      ==> -1 <= Given(jobs, g, order, p, a) - Given(jobs, g, order, p, b) <= 1
  {
    var r, i := PrefixInRound(g, order, LastRound(g, order), p);
    SubPrefix(jobs, g, order, r, i, a);
    SubPrefix(jobs, g, order, r, i, b);
  }

  /**
   Sorting pays off: the hosts still live in a round are the first ones of the order, the empty host
   aside, so those that are emptied come last.
   */
  lemma LiveIsPrefix(g: Lists, order: seq<string>, r: nat)
    requires HostOrder(g, order)
    ensures DeleteEmpty(LiveHosts(g, order, r)) <= DeleteEmpty(order)
  {
    PrefixOfSorted(g, Least(g, order), order, r);
  }

  ghost predicate Descending(g: Lists, s: seq<string>) {
    forall i, j :: 0 <= i < j < |s| ==> Size(g, s[i]) >= Size(g, s[j])
  }

  lemma {:induction false} PrefixOfSorted(g: Lists, least: nat, s: seq<string>, r: nat)
    requires Descending(g, s)
    ensures DeleteEmpty(Live(g, least, s, r)) <= DeleteEmpty(s)
  {
    if s != [] {
      var rest := s[1..];
      PrefixOfSorted(g, least, rest, r);
      if Size(g, s[0]) <= r {
        assert forall k :: 0 <= k < |rest| ==> rest[k] == s[k + 1];
        NoneLive(g, least, rest, r);
      }
      if Quota(g, least, s[0]) > r { DeleteFirst(s[0], Live(g, least, rest, r)); }
    }
  }

  lemma DeleteFirst(h: string, s: seq<string>)
    ensures DeleteEmpty([h] + s) == if h == EMPTY_HOST then DeleteEmpty(s) else [h] + DeleteEmpty(s)
  {
    assert ([h] + s)[1..] == s;
  }

  lemma {:induction false} NoneLive(g: Lists, least: nat, s: seq<string>, r: nat)
    requires forall k :: 0 <= k < |s| ==> Size(g, s[k]) <= r
    ensures DeleteEmpty(Live(g, least, s, r)) == []
  {
    if s != [] {
      NoneLive(g, least, s[1..], r);
      if Quota(g, least, s[0]) > r { DeleteFirst(s[0], Live(g, least, s[1..], r)); }
    }
  }

  // ---- every grouping can be ordered ----

  /** Some host of a set has a largest group. */
  lemma {:induction false} LargestHost(g: Lists, hs: set<string>) returns (m: string)
    requires hs != {}
    ensures m in hs && forall h :: h in hs ==> Size(g, m) >= Size(g, h)
    decreases |hs|
  {
    m :| m in hs;
    if h :| h in hs && Size(g, h) > Size(g, m) {
      var rest := LargestHost(g, hs - {m});
      m := rest;
    }
  }

  lemma {:induction false} OrderExists(g: Lists, hs: set<string>) returns (order: seq<string>)
    ensures Distinct(order) && Descending(g, order) && forall h :: h in order <==> h in hs
    decreases |hs|
  {
    if hs == {} {
      order := [];
    } else {
      var m := LargestHost(g, hs);
      var rest := OrderExists(g, hs - {m});
      order := [m] + rest;
      assert forall i :: 1 <= i < |order| ==> order[i] == rest[i - 1] && order[i] in hs - {m};
    }
  }

  /** Whatever the grouping, sorting its hosts has an outcome, so the promises hold of some order. */
  lemma HostOrderExists(g: Lists) returns (order: seq<string>)
    ensures HostOrder(g, order)
  {
    order := OrderExists(g, set h | h in g && g[h] != []);
  }

  // ---- every job exactly once ----

  lemma {:induction false} SubCount(jobs: seq<Job>, em: seq<nat>, x: nat)
    requires x < |jobs|
    ensures multiset(em)[x] == multiset(Sub(jobs, em, HostKey(jobs[x])))[x]
  {
    if em != [] {
      var last := |em| - 1;
      assert em == em[..last] + [em[last]];
      SubCount(jobs, em[..last], x);
    }
  }

  lemma {:induction false} CountBackwards(s: seq<nat>, list: seq<nat>, k: nat)
    requires |s| <= |list| && k < |list|
    requires forall i, j :: 0 <= i < j < |list| ==> list[i] < list[j]
    requires forall i :: 0 <= i < |s| ==> s[i] == list[|list| - 1 - i]
    ensures multiset(s)[list[k]] == if k >= |list| - |s| then 1 else 0
  {
    if s != [] {
      var last := |s| - 1;
      assert s == s[..last] + [s[last]];
      CountBackwards(s[..last], list, k);
      assert s[last] == list[|list| - |s|];
    }
  }

  lemma EmissionPerHost(jobs: seq<Job>, g: Lists, order: seq<string>, h: string)
    requires IsGrouping(jobs, g) && HostOrder(g, order) && h in order
    ensures Gives(jobs, Emission(g, order), g, h, Quota(g, Least(g, order), h))
  {
    QuotaBounds(g, order, h);
    SubRounds(jobs, g, order, LastRound(g, order), h);
  }

  lemma GivesCount(jobs: seq<Job>, em: seq<nat>, g: Lists, h: string, n: nat, k: nat)
    requires Gives(jobs, em, g, h, n) && n <= Size(g, h) && k < Size(g, h)
    requires forall i, j :: 0 <= i < j < |g[h]| ==> g[h][i] < g[h][j]
    ensures multiset(Sub(jobs, em, h))[g[h][k]] == if k >= Size(g, h) - n then 1 else 0
  {
    var s, list := Sub(jobs, em, h), g[h];
    assert forall i :: 0 <= i < n ==> s[i] == Pick(g, h, i) == list[|list| - 1 - i];
    CountBackwards(s, list, k);
  }

  lemma EmissionCount(jobs: seq<Job>, g: Lists, order: seq<string>, h: string, k: nat)
    requires IsGrouping(jobs, g) && HostOrder(g, order) && h in order && k < Size(g, h)
    ensures g[h][k] < |jobs|
    ensures multiset(Emission(g, order))[g[h][k]] == if k >= Size(g, h) - Quota(g, Least(g, order), h) then 1 else 0
  {
    GroupMembers(jobs, h);
    var em, n := Emission(g, order), Quota(g, Least(g, order), h);
    assert g[h] == Group(jobs, h);
    assert n <= Size(g, h) by { QuotaBounds(g, order, h); }
    assert Gives(jobs, em, g, h, n) by { EmissionPerHost(jobs, g, order, h); }
    GivesCount(jobs, em, g, h, n, k);
    SubCount(jobs, em, g[h][k]);
  }

  lemma PositionInGroup(jobs: seq<Job>, g: Lists, order: seq<string>, x: nat) returns (k: nat)
    requires IsGrouping(jobs, g) && HostOrder(g, order) && x < |jobs|
    ensures var h := HostKey(jobs[x]); h in order && k < Size(g, h) && g[h][k] == x
  {
    var h := HostKey(jobs[x]);
    GroupMembers(jobs, h);
    assert x in Group(jobs, h);
    k :| 0 <= k < |Group(jobs, h)| && Group(jobs, h)[k] == x;
  }

  /** No job is handed out twice. */
  lemma NoJobTwice(jobs: seq<Job>, g: Lists, order: seq<string>, x: nat)
    requires IsGrouping(jobs, g) && HostOrder(g, order) && x < |jobs|
    ensures multiset(Emission(g, order))[x] <= 1
  {
    var k := PositionInGroup(jobs, g, order, x);
    EmissionCount(jobs, g, order, HostKey(jobs[x]), k);
  }

  /** The caller's side of losing nothing: no host has fewer jobs than the empty one. */
  ghost predicate EmptyHostIsSmallest(g: Lists, order: seq<string>) {
    EMPTY_HOST in order ==> forall h :: h in order ==> Size(g, EMPTY_HOST) <= Size(g, h)
  }

  /** Every job is handed out exactly once if and only if the empty host is not outlasted. */
  lemma NoJobLost(jobs: seq<Job>, g: Lists, order: seq<string>)
    requires IsGrouping(jobs, g) && HostOrder(g, order)
    ensures EmptyHostIsSmallest(g, order) <==> forall x: nat :: x < |jobs| ==> multiset(Emission(g, order))[x] == 1
  {
    if EmptyHostIsSmallest(g, order) {
      forall x: nat | x < |jobs| ensures multiset(Emission(g, order))[x] == 1 {
        var k := PositionInGroup(jobs, g, order, x);
        var h := HostKey(jobs[x]);
        assert order[|order| - 1] in order;
        QuotaBounds(g, order, h);
        EmissionCount(jobs, g, order, h, k);
      }
    } else {
      // the job at the head of the empty host's list is never reached
      var h :| h in order && Size(g, EMPTY_HOST) > Size(g, h);
      QuotaBounds(g, order, h);
      assert Least(g, order) <= Size(g, h) by { LeastIsLeast(g, order, h); }
      EmissionCount(jobs, g, order, EMPTY_HOST, 0);
      assert multiset(Emission(g, order))[g[EMPTY_HOST][0]] != 1;
    }
  }

  lemma LeastIsLeast(g: Lists, order: seq<string>, h: string)
    requires HostOrder(g, order) && h in order
    ensures Least(g, order) <= Size(g, h)
  {
  }

  /** A batch that loses a job: two feeds without a host beside one with a host. */
  lemma EmptyHostLosesJob(g: Lists, order: seq<string>)
    requires IsGrouping([Job("/a", Some("")), Job("/b", Some("")), Job("https://c", Some("c"))], g)
    requires HostOrder(g, order)
    ensures 0 !in Emission(g, order)
  {
    var a, b, c := Job("/a", Some("")), Job("/b", Some("")), Job("https://c", Some("c"));
    GroupsOfThree(a, b, c, "");
    GroupsOfThree(a, b, c, "c");
    assert HostKey(c) == "c" != "";
    assert g[""] == [0, 1] && g["c"] == [2];
    LeastIsLeast(g, order, "c");
    EmissionCount([a, b, c], g, order, "", 0);
    assert multiset(Emission(g, order))[0] == 0;
  }

  lemma GroupsOfThree(a: Job, b: Job, c: Job, h: string)
    ensures Group([a, b, c], h) ==
      (if HostKey(a) == h then [0] else []) + (if HostKey(b) == h then [1] else [])
      + (if HostKey(c) == h then [2] else [])
  {
    var jobs := [a, b, c];
    assert jobs[..2] == [a, b] && jobs[..2][..1] == [a] && jobs[..2][..1][..0] == [];
    assert Group([a], h) == if HostKey(a) == h then [0] else [];
    assert Group([a, b], h) == Group([a], h) + if HostKey(b) == h then [1] else [];
  }
}
