/**
 Order in which a batch of jobs is handed to the workers (internal/worker/pool.go and
 internal/worker/item.go): jobs are grouped by host and taken in rounds, one job of every
 live host a round, so that one slow host does not keep all workers busy.

 A job is named by its index in the input, the way the source names it by `&jobs[i]`.
 */
module Distribute {
  import opened Prelude

  /** `host` is the outcome of `url.Parse(FeedURL)`: the host part, or None on a parse error. */
  datatype Job = Job(feedURL: string, host: Option<string>)

  /** A queue item: the job it carries and its position in the distributed order. */
  datatype Item = Item(job: nat, index: nat) {
    function Id(): nat { index + 1 }
  }

  /** The mark `distributeJobs` writes over an emptied host; a real host may be empty as well. */
  const EMPTY_HOST: string := ""

  function HostKey(j: Job): string {
    match j.host
    case Some(h) => h
    case None => j.feedURL
  }

  /** The jobs of one host, in input order. */
  function Group(jobs: seq<Job>, h: string): seq<nat> {
    if jobs == [] then [] else
    var last := |jobs| - 1;
    var g := Group(jobs[..last], h);
    if HostKey(jobs[last]) == h then g + [last] else g
  }

  lemma {:induction false} GroupMembers(jobs: seq<Job>, h: string)
    ensures var g := Group(jobs, h);
      && (forall k :: 0 <= k < |g| ==> g[k] < |jobs| && HostKey(jobs[g[k]]) == h)
      && (forall i, j :: 0 <= i < j < |g| ==> g[i] < g[j])
      && (forall i :: 0 <= i < |jobs| && HostKey(jobs[i]) == h ==> i in g)
  {
    if jobs != [] {
      var last := |jobs| - 1;
      GroupMembers(jobs[..last], h);
      assert forall i :: 0 <= i < last ==> jobs[..last][i] == jobs[i];
    }
  }

  /** The map the source calls `perHost`, as the grouping loop leaves it. */
  type Lists = map<string, seq<nat>>

  ghost predicate IsGrouping(jobs: seq<Job>, lists: Lists) {
    && (forall h :: h in lists <==> Group(jobs, h) != [])
    && (forall h :: h in lists ==> lists[h] == Group(jobs, h))
  }

  /** The host of a job, or its whole URL where that does not parse. */
  predicate IsHostOf(j: Job, h: string) { if j.host.Some? then j.host.value == h else j.feedURL == h }

  lemma {:induction false} InGroup(jobs: seq<Job>, h: string, x: nat)
    ensures x in Group(jobs, h) <==> x < |jobs| && IsHostOf(jobs[x], h)
  {
    if jobs != [] { InGroup(jobs[..|jobs| - 1], h, x); }
  }

  /** Two jobs are in one list exactly when they have one host, and a job is in the list of its host. */
  lemma GroupedByHost(jobs: seq<Job>, lists: Lists, x: nat, y: nat)
    requires IsGrouping(jobs, lists) && x < |jobs| && y < |jobs|
    ensures (exists h :: h in lists && x in lists[h] && y in lists[h]) <==>
      exists h :: IsHostOf(jobs[x], h) && IsHostOf(jobs[y], h)
    ensures forall h :: h in lists && x in lists[h] <==> IsHostOf(jobs[x], h)
  {
    forall h ensures h in lists && x in lists[h] <==> IsHostOf(jobs[x], h) { InGroup(jobs, h, x); }
    forall h ensures h in lists && y in lists[h] <==> IsHostOf(jobs[y], h) { InGroup(jobs, h, y); }
    if h :| IsHostOf(jobs[x], h) && IsHostOf(jobs[y], h) { assert h in lists && x in lists[h] && y in lists[h]; }
  }

  function Size(lists: Lists, h: string): nat { if h in lists then |lists[h]| else 0 }

  ghost predicate Distinct<T>(s: seq<T>) {
    forall i, j :: 0 <= i < j < |s| ==> s[i] != s[j]
  }

  /**
   `hosts` is a possible outcome of sorting the map's keys by descending group size. Go's map
   order is random and the sort is not stable, so hosts of equal size may come in any order.
   */
  ghost predicate HostOrder(g: Lists, hosts: seq<string>) {
    && Distinct(hosts)
    && (forall i, j :: 0 <= i < j < |hosts| ==> Size(g, hosts[i]) >= Size(g, hosts[j]))
    && (forall h :: h in hosts <==> h in g && g[h] != [])
  }

  /** The size of the smallest host group. */
  ghost function Least(g: Lists, hosts: seq<string>): nat {
    if hosts == [] then 0 else Size(g, hosts[|hosts| - 1])
  }

  /** How many rounds a host takes part in: the empty host leaves with the first emptied one. */
  ghost function Quota(g: Lists, least: nat, h: string): nat {
    if h == EMPTY_HOST then least else Size(g, h)
  }

  /** The sublist of `s` still taking part in round `r`. */
  ghost function Live(g: Lists, least: nat, s: seq<string>, r: nat): (live: seq<string>)
    ensures forall h :: h in live <==> h in s && Quota(g, least, h) > r
  {
    if s == [] then [] else
    if Quota(g, least, s[0]) > r then [s[0]] + Live(g, least, s[1..], r)
    else Live(g, least, s[1..], r)
  }

  ghost function LiveHosts(g: Lists, hosts: seq<string>, r: nat): seq<string> {
    Live(g, Least(g, hosts), hosts, r)
  }

  /** The job host `h` gives in round `r`: jobs are taken from the end of the group. */
  ghost function Pick(g: Lists, h: string, r: nat): nat {
    if r < Size(g, h) then g[h][Size(g, h) - 1 - r] else 0
  }

  ghost function RoundJobs(g: Lists, live: seq<string>, r: nat): (em: seq<nat>)
    ensures |em| == |live|
  {
    if live == [] then [] else
    var last := |live| - 1;
    RoundJobs(g, live[..last], r) + [Pick(g, live[last], r)]
  }

  /** Everything emitted in the rounds before `r`. */
  ghost function Rounds(g: Lists, hosts: seq<string>, r: nat): seq<nat> {
    if r == 0 then [] else
    Rounds(g, hosts, r - 1) + RoundJobs(g, LiveHosts(g, hosts, r - 1), r - 1)
  }

  ghost function LastRound(g: Lists, hosts: seq<string>): nat {
    if hosts == [] then 0 else Size(g, hosts[0])
  }

  /** The whole emission. */
  ghost function Emission(g: Lists, hosts: seq<string>): seq<nat> {
    Rounds(g, hosts, LastRound(g, hosts))
  }

  lemma QuotaBounds(g: Lists, hosts: seq<string>, h: string)
    requires HostOrder(g, hosts) && h in hosts
    ensures 0 < Least(g, hosts) <= Quota(g, Least(g, hosts), h) <= Size(g, h) <= LastRound(g, hosts)
  {
  }

  // ---- the loops of the source ----

  /** Lines 157-165: fill the per-host lists. */
  method GroupByHost(jobs: seq<Job>) returns (perHost: Lists)
    ensures IsGrouping(jobs, perHost)
  {
    perHost := map[];
    for i := 0 to |jobs|
      invariant IsGrouping(jobs[..i], perHost)
    {
      var key := HostKey(jobs[i]);
      assert jobs[..i + 1][..i] == jobs[..i];
      var list := if key in perHost then perHost[key] else [];
      perHost := perHost[key := list + [i]];
    }
    assert jobs[..|jobs|] == jobs;
  }

  /** `slices.DeleteFunc(hosts, host == "")`. */
  function DeleteEmpty(hosts: seq<string>): seq<string> {
    if hosts == [] then [] else
    if hosts[0] == EMPTY_HOST then DeleteEmpty(hosts[1..]) else [hosts[0]] + DeleteEmpty(hosts[1..])
  }

  /** The host list as round `r` leaves it: emptied hosts overwritten by the mark. */
  ghost predicate Marked(g: Lists, live: seq<string>, hosts: seq<string>, r: nat) {
    && |hosts| == |live|
    && forall k :: 0 <= k < |live| ==> hosts[k] == if Size(g, live[k]) == r + 1 then EMPTY_HOST else live[k]
  }

  lemma {:induction false} DeleteMarks(g: Lists, least: nat, s: seq<string>, marked: seq<string>, r: nat)
    requires least <= r + 1 && least <= Size(g, EMPTY_HOST)
    requires Marked(g, Live(g, least, s, r), marked, r)
    ensures DeleteEmpty(marked) == Live(g, least, s, r + 1)
  {
    if s != [] {
      var live := Live(g, least, s, r);
      if Quota(g, least, s[0]) > r {
        assert live[0] == s[0] && live[1..] == Live(g, least, s[1..], r);
        assert marked[0] == EMPTY_HOST <==> Quota(g, least, s[0]) == r + 1;
        DeleteMarks(g, least, s[1..], marked[1..], r);
      } else {
        DeleteMarks(g, least, s[1..], marked, r);
      }
    }
  }

  lemma {:induction false} NothingMarked(g: Lists, least: nat, s: seq<string>, r: nat)
    requires forall h :: h in s ==> Quota(g, least, h) != r + 1
    ensures Live(g, least, s, r) == Live(g, least, s, r + 1)
  {
    if s != [] { NothingMarked(g, least, s[1..], r); }
  }

  lemma {:induction false} AllLive(g: Lists, least: nat, s: seq<string>, r: nat)
    requires forall h :: h in s ==> Quota(g, least, h) > r
    ensures Live(g, least, s, r) == s
  {
    if s != [] { AllLive(g, least, s[1..], r); }
  }

  lemma {:induction false} LiveShrinks(g: Lists, least: nat, s: seq<string>, r: nat)
    ensures |Live(g, least, s, r + 1)| <= |Live(g, least, s, r)|
  {
    if s != [] { LiveShrinks(g, least, s[1..], r); }
  }

  lemma {:induction false} LiveDistinct(g: Lists, least: nat, s: seq<string>, r: nat)
    requires Distinct(s)
    ensures Distinct(Live(g, least, s, r))
  {
    if s != [] {
      assert s[0] !in s[1..];
      LiveDistinct(g, least, s[1..], r);
      Prepend(s[0], Live(g, least, s[1..], r));
    }
  }

  lemma Prepend<T>(x: T, s: seq<T>)
    requires Distinct(s) && x !in s
    ensures Distinct([x] + s)
  {
  }

  /** What a host's list holds after `r` of its jobs were taken. */
  ghost predicate Left(g: Lists, perHost: Lists, h: string, r: nat) {
    r < Size(g, h) ==> h in perHost && perHost[h] == g[h][..Size(g, h) - r]
  }

  /** Lines 174-186, one pass over the live hosts. */
  method OneRound(ghost g: Lists, live: seq<string>, ghost r: nat, lists: Lists)
    returns (perHost: Lists, hosts: seq<string>, deleted: bool, emitted: seq<nat>)
    requires Distinct(live)
    requires forall h :: h in live ==> r < Size(g, h) && Left(g, lists, h, r)
    ensures Marked(g, live, hosts, r)
    ensures deleted <==> exists h :: h in live && Size(g, h) == r + 1
    ensures forall h :: h in live ==> Left(g, perHost, h, r + 1)
    ensures emitted == RoundJobs(g, live, r)
  {
    perHost, hosts, deleted, emitted := lists, live, false, [];
    for i := 0 to |hosts|
      invariant |hosts| == |live|
      invariant forall k :: i <= k < |live| ==> hosts[k] == live[k] && Left(g, perHost, live[k], r)
      invariant forall k :: 0 <= k < i ==> hosts[k] == if Size(g, live[k]) == r + 1 then EMPTY_HOST else live[k]
      invariant forall k :: 0 <= k < i ==> Left(g, perHost, live[k], r + 1)
      invariant deleted ==> exists h :: h in live && Size(g, h) == r + 1
      invariant !deleted ==> forall k :: 0 <= k < i ==> Size(g, live[k]) != r + 1
      invariant |emitted| == i && forall k :: 0 <= k < i ==> emitted[k] == Pick(g, live[k], r)
    {
      var host := hosts[i];
      assert host in live && Left(g, perHost, host, r) && r < Size(g, host);
      assert forall k :: 0 <= k < |live| && k != i ==> live[k] != host;
      var hostJobs := perHost[host];
      assert hostJobs[|hostJobs| - 1] == Pick(g, host, r);
      emitted := emitted + [hostJobs[|hostJobs| - 1]];
      if |hostJobs| > 1 {
        assert hostJobs[..|hostJobs| - 1] == g[host][..Size(g, host) - (r + 1)];
        perHost := perHost[host := hostJobs[..|hostJobs| - 1]];
      } else {
        hosts := hosts[i := EMPTY_HOST];
        deleted := true;
      }
    }
    RoundJobsAre(g, live, r, emitted);
  }

  lemma {:induction false} RoundJobsAre(g: Lists, live: seq<string>, r: nat, em: seq<nat>)
    requires |em| == |live| && forall k :: 0 <= k < |em| ==> em[k] == Pick(g, live[k], r)
    ensures em == RoundJobs(g, live, r)
  {
    if live != [] {
      var last := |live| - 1;
      assert em == em[..last] + [em[last]];
      RoundJobsAre(g, live[..last], r, em[..last]);
    }
  }

  /** Lines 171-192, the iterator `distributeJobs` returns, for a consumer that takes every job. */
  method EmitRounds(g: Lists, order: seq<string>) returns (emitted: seq<nat>)
    requires HostOrder(g, order)
    ensures emitted == Emission(g, order)
  {
    var perHost, hosts := g, order;
    emitted := [];
    ghost var r := 0;
    RoundsStart(g, order, perHost);
    while |hosts| > 0
      invariant AtRound(g, order, r, hosts, perHost, emitted)
      decreases LastRound(g, order) - r
    {
      var deleted, em;
      RoundStart(g, order, r, hosts, perHost, emitted);
      ghost var live, lists := hosts, perHost;
      perHost, hosts, deleted, em := OneRound(g, hosts, r, perHost);
      RoundEnd(g, order, live, lists, perHost, hosts, deleted, emitted, em, r);
      emitted, hosts := emitted + em, if deleted then DeleteEmpty(hosts) else hosts;
      r := r + 1;
    }
    Finished(g, order, r);
  }

  /** The state of the outer loop before round `r`. */
  ghost predicate AtRound(g: Lists, order: seq<string>, r: nat, hosts: seq<string>, perHost: Lists, emitted: seq<nat>) {
    && hosts == LiveHosts(g, order, r)
    && (forall h :: h in hosts ==> Left(g, perHost, h, r))
    && emitted == Rounds(g, order, r)
    && r <= LastRound(g, order)
  }

  lemma RoundsStart(g: Lists, order: seq<string>, perHost: Lists)
    requires HostOrder(g, order) && perHost == g
    ensures AtRound(g, order, 0, order, perHost, [])
  {
    forall h | h in order ensures Quota(g, Least(g, order), h) > 0 { QuotaBounds(g, order, h); }
    AllLive(g, Least(g, order), order, 0);
  }

  lemma RoundStart(g: Lists, order: seq<string>, r: nat, hosts: seq<string>, perHost: Lists, emitted: seq<nat>)
    requires HostOrder(g, order) && AtRound(g, order, r, hosts, perHost, emitted) && hosts != []
    ensures Distinct(hosts) && r < LastRound(g, order)
    ensures forall h :: h in hosts ==> r < Size(g, h) && Left(g, perHost, h, r)
  {
    forall h | h in hosts ensures r < Size(g, h) <= LastRound(g, order) { QuotaBounds(g, order, h); }
    assert hosts[0] in hosts;
    LiveDistinct(g, Least(g, order), order, r);
  }

  lemma NextLive(g: Lists, order: seq<string>, live: seq<string>, marked: seq<string>, deleted: bool, r: nat)
    requires HostOrder(g, order) && live != [] && live == LiveHosts(g, order, r)
    requires Marked(g, live, marked, r)
    requires deleted <==> exists h :: h in live && Size(g, h) == r + 1
    ensures (if deleted then DeleteEmpty(marked) else marked) == LiveHosts(g, order, r + 1)
  {
    var least := Least(g, order);
    if deleted {
      var h :| h in live && Size(g, h) == r + 1;
      QuotaBounds(g, order, h);
      if EMPTY_HOST in order {
        QuotaBounds(g, order, EMPTY_HOST);
        DeleteMarks(g, least, order, marked, r);
      } else {
        DeleteMarksNoEmpty(g, least, order, marked, r);
      }
    } else {
      assert forall k :: 0 <= k < |marked| ==> live[k] in live;
      assert marked == live;
      var last := order[|order| - 1];
      QuotaBounds(g, order, live[0]);
      // the empty host's quota is the least size
      assert last in order && (least == r + 1 ==> last in live);
      NothingMarked(g, least, order, r);
    }
  }

  lemma {:induction false} DeleteMarksNoEmpty(g: Lists, least: nat, s: seq<string>, marked: seq<string>, r: nat)
    requires EMPTY_HOST !in s
    requires Marked(g, Live(g, least, s, r), marked, r)
    ensures DeleteEmpty(marked) == Live(g, least, s, r + 1)
  {
    if s != [] {
      var live := Live(g, least, s, r);
      if Quota(g, least, s[0]) > r {
        assert live[0] == s[0] && live[1..] == Live(g, least, s[1..], r);
        DeleteMarksNoEmpty(g, least, s[1..], marked[1..], r);
      } else {
        DeleteMarksNoEmpty(g, least, s[1..], marked, r);
      }
    }
  }

  lemma RoundEnd(g: Lists, order: seq<string>, live: seq<string>, lists: Lists,
                 perHost: Lists, marked: seq<string>, deleted: bool, emitted: seq<nat>, em: seq<nat>, r: nat)
    requires HostOrder(g, order) && live != [] && AtRound(g, order, r, live, lists, emitted) && r < LastRound(g, order)
    requires Marked(g, live, marked, r)
    requires deleted <==> exists h :: h in live && Size(g, h) == r + 1
    requires forall h :: h in live ==> Left(g, perHost, h, r + 1)
    requires em == RoundJobs(g, live, r)
    ensures AtRound(g, order, r + 1, if deleted then DeleteEmpty(marked) else marked, perHost, emitted + em)
  {
    var next := if deleted then DeleteEmpty(marked) else marked;
    NextLive(g, order, live, marked, deleted, r);
    assert forall h :: h in next ==> h in live;
    RoundsStep(g, order, r);
  }

  lemma RoundsStep(g: Lists, order: seq<string>, r: nat)
    ensures Rounds(g, order, r + 1) == Rounds(g, order, r) + RoundJobs(g, LiveHosts(g, order, r), r)
  {
  }

  lemma {:induction false} Finished(g: Lists, order: seq<string>, r: nat)
    requires r <= LastRound(g, order) && LiveHosts(g, order, r) == []
    ensures Emission(g, order) == Rounds(g, order, r)
    decreases LastRound(g, order) - r
  {
    if r < LastRound(g, order) {
      LiveShrinks(g, Least(g, order), order, r);
      assert RoundJobs(g, [], r) == [];
      Finished(g, order, r + 1);
    }
  }

  lemma GroupingIsUnique(jobs: seq<Job>, a: Lists, b: Lists)
    requires IsGrouping(jobs, a) && IsGrouping(jobs, b)
    ensures a == b
  {
  }

  /** Lines 156-193 and `makeItems`: items are numbered in the order they are emitted. */
  method MakeItems(jobs: seq<Job>, ghost g: Lists, order: seq<string>) returns (items: seq<Item>)
    requires IsGrouping(jobs, g) && HostOrder(g, order)
    ensures |items| == |Emission(g, order)|
    ensures forall k :: 0 <= k < |items| ==> items[k] == Item(Emission(g, order)[k], k) && items[k].Id() == k + 1
  {
    var perHost := GroupByHost(jobs);
    GroupingIsUnique(jobs, g, perHost);
    var emitted := EmitRounds(perHost, order);
    items := [];
    for i := 0 to |emitted|
      invariant |items| == i
      invariant forall k :: 0 <= k < i ==> items[k] == Item(emitted[k], k)
    {
      items := items + [Item(emitted[i], |items|)];
    }
  }
}
