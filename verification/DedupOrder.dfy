/**
 The filter of a batch sees the created entries of many feeds in whatever order the workers come
 (internal/storage/dedup.go). Here the entries are fixed and only their order varies.
 */
module DedupOrder {
  import opened RefreshSpec

  /** One created entry reaching the filter of its user. */
  datatype Event = Event(user: Id, e: EntryV)

  datatype Totals = Totals(seen: map<Id, Seen>, created: nat, dedups: nat, left: nat)

  function SeenBy(seen: map<Id, Seen>, user: Id): Seen { if user in seen then seen[user] else map[] }

  function Apply(t: Totals, ev: Event): Totals {
    var f := FilterOne(Filtered(SeenBy(t.seen, ev.user), [], 0, 0), ev.e);
    Totals(t.seen[ev.user := f.seen], t.created + f.created, t.dedups + f.dedups,
           t.left + if f.entries[0].status.Unread? then 1 else 0)
  }

  /** The totals after a sequence of events; `left` counts the entries still unread afterwards. */
  function Run(evs: seq<Event>): Totals {
    if evs == [] then Totals(map[], 0, 0, 0) else Apply(Run(evs[..|evs| - 1]), evs[|evs| - 1])
  }

  predicate IsUnread(ev: Event) { ev.e.status.Unread? }

  /** The distinct (user, hash) pairs seen unread. */
  ghost function UnreadPairs(evs: seq<Event>): set<(Id, Hash)> {
    set i | 0 <= i < |evs| && IsUnread(evs[i]) :: (evs[i].user, evs[i].e.hash)
  }

  /** The entries of all per-user maps. */
  ghost function Pairs(seen: map<Id, Seen>): set<(Id, Hash)> {
    set u, h | u in seen && h in seen[u] :: (u, h)
  }

  type Pair = (Id, Hash)

  function PairOf(ev: Event): Pair { (ev.user, ev.e.hash) }

  /** Which unread events to count; unless `all`, imported ones are left out. */
  datatype Test =
    | AnyUnread
    | AwayFrom(leads: map<Pair, Id>, all: bool)   // brought by another feed than the one that leads the pair
    | CopyOf(p: Pair, feed: Id, all: bool)

  predicate Passes(t: Test, ev: Event) {
    IsUnread(ev) && match t
      case AnyUnread => true
      case AwayFrom(leads, all) => (all || !ev.e.imported) && !(PairOf(ev) in leads && leads[PairOf(ev)] == ev.e.feedID)
      case CopyOf(p, feed, all) => (all || !ev.e.imported) && PairOf(ev) == p && ev.e.feedID == feed
  }

  function Tally(evs: seq<Event>, t: Test): nat {
    if evs == [] then 0 else Tally(evs[..|evs| - 1], t) + if Passes(t, evs[|evs| - 1]) then 1 else 0
  }

  function UnreadCount(evs: seq<Event>): nat { Tally(evs, AnyUnread) }

  lemma PairsGrow(t: Totals, ev: Event)
    ensures Pairs(Apply(t, ev).seen) == Pairs(t.seen) + if IsUnread(ev) then {(ev.user, ev.e.hash)} else {}
  {
  }

  lemma UnreadPairsGrow(evs: seq<Event>)
    requires evs != []
    ensures var ev := evs[|evs| - 1];
      UnreadPairs(evs) == UnreadPairs(evs[..|evs| - 1]) + if IsUnread(ev) then {(ev.user, ev.e.hash)} else {}
  {
  }

  /** `created` is the total size of the per-user maps, and the number of distinct pairs seen unread. */
  lemma {:induction false} CreatedCountsPairs(evs: seq<Event>)
    ensures Pairs(Run(evs).seen) == UnreadPairs(evs)
    ensures Run(evs).created == |UnreadPairs(evs)|
  {
    if evs != [] {
      var init, ev := evs[..|evs| - 1], evs[|evs| - 1];
      CreatedCountsPairs(init);
      PairsGrow(Run(init), ev);
      UnreadPairsGrow(evs);
      var p := (ev.user, ev.e.hash);
      assert p in Pairs(Run(init).seen) <==> ev.e.hash in SeenBy(Run(init).seen, ev.user);
    }
  }

  predicate RepeatsInFeed(x: Event, y: Event) {
    IsUnread(x) && IsUnread(y) && x.user == y.user && x.e.hash == y.e.hash && x.e.feedID == y.e.feedID
  }

  /** No feed repeats an unread hash, and no unread entry is imported. */
  ghost predicate Clean(evs: seq<Event>) {
    && (forall i :: 0 <= i < |evs| && IsUnread(evs[i]) ==> !evs[i].e.imported)
    && (forall i, j :: 0 <= i < j < |evs| ==> !RepeatsInFeed(evs[i], evs[j]))
  }

  /** The recorded feed of a pair is that of an event already seen. */
  lemma {:induction false} RecordedByEvent(evs: seq<Event>, user: Id, h: Hash) returns (i: nat)
    requires h in SeenBy(Run(evs).seen, user)
    ensures i < |evs| && IsUnread(evs[i]) && evs[i].user == user && evs[i].e.hash == h
    ensures evs[i].e.feedID == SeenBy(Run(evs).seen, user)[h]
  {
    var init, ev := evs[..|evs| - 1], evs[|evs| - 1];
    if h in SeenBy(Run(init).seen, user) {
      i := RecordedByEvent(init, user, h);
    } else {
      i := |evs| - 1;
    }
  }

  /** In a clean batch one copy of each pair stays unread and every other one is a counted dedup. */
  lemma {:induction false} CleanBatchAccounts(evs: seq<Event>)
    requires Clean(evs)
    ensures Run(evs).left == |UnreadPairs(evs)|
    ensures Run(evs).dedups == UnreadCount(evs) - |UnreadPairs(evs)|
  {
    if evs != [] {
      var init, ev := evs[..|evs| - 1], evs[|evs| - 1];
      CleanBatchAccounts(init);
      CreatedCountsPairs(init);
      CreatedCountsPairs(evs);
      if IsUnread(ev) && ev.e.hash in SeenBy(Run(init).seen, ev.user) {
        var i := RecordedByEvent(init, ev.user, ev.e.hash);
        assert evs[i] == init[i];
      }
    }
  }

  /** A step that a different order cannot change: the counts depend on which entries came, not when. */
  lemma OrderDoesNotMatter(a: seq<Event>, b: seq<Event>)
    requires multiset(a) == multiset(b)
    ensures Run(a).created == Run(b).created
    ensures Clean(a) ==> Clean(b) && Run(a).left == Run(b).left && Run(a).dedups == Run(b).dedups
  {
    CreatedCountsPairs(a);
    CreatedCountsPairs(b);
    SamePairs(a, b);
    SamePairs(b, a);
    assert UnreadPairs(a) == UnreadPairs(b);
    if Clean(a) {
      CleanPermutes(a, b);
      CleanBatchAccounts(a);
      CleanBatchAccounts(b);
      SameTally(a, b, AnyUnread);
    }
  }

  lemma SamePairs(a: seq<Event>, b: seq<Event>)
    requires multiset(a) == multiset(b)
    ensures UnreadPairs(a) <= UnreadPairs(b)
  {
    forall p | p in UnreadPairs(a) ensures p in UnreadPairs(b) {
      var i :| 0 <= i < |a| && IsUnread(a[i]) && p == (a[i].user, a[i].e.hash);
      assert a[i] in multiset(b);
      var j :| 0 <= j < |b| && b[j] == a[i];
    }
  }

  /** Permutations count the same. */
  lemma {:induction false} SameTally(a: seq<Event>, b: seq<Event>, t: Test)
    requires multiset(a) == multiset(b)
    ensures Tally(a, t) == Tally(b, t)
    decreases |a|
  {
    if a == [] {
      assert |multiset(b)| == 0;
    } else {
      var j := Match(a, b);
      SameTally(a[..|a| - 1], b[..j] + b[j + 1..], t);
      TallyWithout(b, j, t);
    }
  }

  /** Find the last element of `a` in its permutation `b` and take it out of both. */
  lemma Match<T>(a: seq<T>, b: seq<T>) returns (j: nat)
    requires multiset(a) == multiset(b) && a != []
    ensures j < |b| && b[j] == a[|a| - 1]
    ensures multiset(a[..|a| - 1]) == multiset(b[..j] + b[j + 1..])
  {
    var init, x := a[..|a| - 1], a[|a| - 1];
    assert a == init + [x];
    assert multiset(a) == multiset(init) + multiset{x};
    assert x in multiset(b);
    j :| 0 <= j < |b| && b[j] == x;
    RemoveAt(b, j);
    CancelOne(multiset(init), multiset(b[..j] + b[j + 1..]), x);
  }

  lemma CancelOne<T>(m: multiset<T>, n: multiset<T>, x: T)
    requires m + multiset{x} == n + multiset{x}
    ensures m == n
  {
    assert m == m + multiset{x} - multiset{x} && n == n + multiset{x} - multiset{x};
  }

  lemma RemoveAt<T>(s: seq<T>, j: nat)
    requires j < |s|
    ensures multiset(s) == multiset(s[..j] + s[j + 1..]) + multiset{s[j]}
  {
    assert s == s[..j] + [s[j]] + s[j + 1..];
  }

  lemma TallyWithout(b: seq<Event>, j: nat, t: Test)
    requires j < |b|
    ensures Tally(b, t) == Tally(b[..j] + b[j + 1..], t) + if Passes(t, b[j]) then 1 else 0
  {
    TallyConcat(b[..j], b[j + 1..], t);
    TallyConcat(b[..j + 1], b[j + 1..], t);
    assert b[..j + 1] + b[j + 1..] == b;
    assert b[..j + 1][..j] == b[..j];
  }

  lemma {:induction false} TallyConcat(a: seq<Event>, b: seq<Event>, t: Test)
    ensures Tally(a + b, t) == Tally(a, t) + Tally(b, t)
  {
    if b == [] {
      assert a + b == a;
    } else {
      assert (a + b)[..|a + b| - 1] == a + b[..|b| - 1];
      TallyConcat(a, b[..|b| - 1], t);
    }
  }

  /** Two positions of a repeated pair in `b` are two positions of it in `a`. */
  lemma CleanPermutes(a: seq<Event>, b: seq<Event>)
    requires multiset(a) == multiset(b) && Clean(a)
    ensures Clean(b)
  {
    forall j | 0 <= j < |b| && IsUnread(b[j]) ensures !b[j].e.imported {
      assert b[j] in multiset(a);
      var i :| 0 <= i < |a| && a[i] == b[j];
    }
    forall i, j | 0 <= i < j < |b| ensures !RepeatsInFeed(b[i], b[j]) {
      var p, q := TwoPositions(a, b, i, j);
      assert p < q || q < p;
    }
  }

  lemma TwoPositions(a: seq<Event>, b: seq<Event>, i: nat, j: nat) returns (p: nat, q: nat)
    requires multiset(a) == multiset(b) && i < j < |b|
    ensures p < |a| && q < |a| && p != q && a[p] == b[i] && a[q] == b[j]
  {
    assert b[i] in multiset(a) && b[j] in multiset(a);
    if b[i] == b[j] {
      TwiceCounted(b, i, j);
      p, q := TwiceFound(a, b[i]);
    } else {
      p :| 0 <= p < |a| && a[p] == b[i];
      q :| 0 <= q < |a| && a[q] == b[j];
    }
  }

  lemma TwiceCounted(b: seq<Event>, i: nat, j: nat)
    requires i < j < |b| && b[i] == b[j]
    ensures multiset(b)[b[i]] >= 2
  {
    assert b == b[..j] + b[j..];
    assert b[i] in b[..j] && b[j] in b[j..];
    assert multiset(b) == multiset(b[..j]) + multiset(b[j..]);
  }

  lemma {:induction false} TwiceFound(a: seq<Event>, x: Event) returns (p: nat, q: nat)
    requires multiset(a)[x] >= 2
    ensures p < |a| && q < |a| && p != q && a[p] == x && a[q] == x
  {
    var n := |a| - 1;
    var init := a[..n];
    assert a == init + [a[n]];
    if a[n] == x {
      p := n;
      assert x in multiset(init);
      q :| 0 <= q < n && init[q] == x;
    } else {
      p, q := TwiceFound(init, x);
    }
  }

  /** A smallest batch whose counts depend on the order: one feed repeats the hash of another. */
  lemma RepeatsMakeOrderMatter(x: Event, y: Event)
    requires x.user == y.user && x.e.hash == y.e.hash && x.e.feedID != y.e.feedID
    requires IsUnread(x) && IsUnread(y) && !x.e.imported && !y.e.imported
    ensures multiset([x, x, y]) == multiset([y, x, x])
    ensures Run([x, x, y]).dedups == 1 && Run([x, x, y]).left == 2
    ensures Run([y, x, x]).dedups == 2 && Run([y, x, x]).left == 1
  {
    ThreeEvents(x, x, y);
    ThreeEvents(y, x, x);
    FirstThenSameFeed(Totals(map[], 0, 0, 0), x, y);
    FirstThenOtherFeed(Totals(map[], 0, 0, 0), y, x);
  }

  /** Feed 1 twice, then feed 2: one dedup. */
  lemma FirstThenSameFeed(t: Totals, x: Event, y: Event)
    requires t == Totals(map[], 0, 0, 0) && x.user == y.user && x.e.hash == y.e.hash && x.e.feedID != y.e.feedID
    requires IsUnread(x) && IsUnread(y) && !x.e.imported && !y.e.imported
    ensures Apply(Apply(Apply(t, x), x), y).dedups == 1 && Apply(Apply(Apply(t, x), x), y).left == 2
  {
  }

  /** Feed 2 first, then feed 1 twice: two dedups. */
  lemma FirstThenOtherFeed(t: Totals, y: Event, x: Event)
    requires t == Totals(map[], 0, 0, 0) && x.user == y.user && x.e.hash == y.e.hash && x.e.feedID != y.e.feedID
    requires IsUnread(x) && IsUnread(y) && !x.e.imported && !y.e.imported
    ensures Apply(Apply(Apply(t, y), x), x).dedups == 2 && Apply(Apply(Apply(t, y), x), x).left == 1
  {
  }

  lemma ThreeEvents(x: Event, y: Event, z: Event)
    ensures Run([x, y, z]) == Apply(Apply(Apply(Totals(map[], 0, 0, 0), x), y), z)
  {
    assert [x, y, z][..2] == [x, y] && [x, y][..1] == [x] && [x][..0] == [];
    assert Run([x]) == Apply(Totals(map[], 0, 0, 0), x);
    assert Run([x, y]) == Apply(Run([x]), y);
  }

  // ---- the events are what the calls of `Filter` see ----

  datatype Call = Call(user: Id, entries: seq<EntryV>)

  /** The events of a call's first `k` entries. */
  function EventsTo(c: Call, k: nat): (evs: seq<Event>)
    requires k <= |c.entries|
    ensures |evs| == k
  {
    if k == 0 then [] else EventsTo(c, k - 1) + [Event(c.user, c.entries[k - 1])]
  }

  function EventsOf(calls: seq<Call>): seq<Event> {
    if calls == [] then [] else
    var c := calls[|calls| - 1];
    EventsOf(calls[..|calls| - 1]) + EventsTo(c, |c.entries|)
  }

  function StillUnread(es: seq<EntryV>, k: nat): nat
    requires k <= |es|
  {
    if k == 0 then 0 else StillUnread(es, k - 1) + if es[k - 1].status.Unread? then 1 else 0
  }

  /** One call of `DedupEntries.Filter`, on the totals of the batch. */
  function ApplyCall(t: Totals, c: Call): Totals {
    var f := FilterAll(SeenBy(t.seen, c.user), c.entries);
    Totals(t.seen[c.user := f.seen], t.created + f.created, t.dedups + f.dedups,
           t.left + StillUnread(f.entries, |f.entries|))
  }

  function RunCalls(calls: seq<Call>): Totals {
    if calls == [] then Totals(map[], 0, 0, 0)
    else ApplyCall(RunCalls(calls[..|calls| - 1]), calls[|calls| - 1])
  }

  /** The totals agree, and so do the hashes of every user. */
  ghost predicate Same(a: Totals, b: Totals) {
    && a.created == b.created && a.dedups == b.dedups && a.left == b.left
    && forall u :: SeenBy(a.seen, u) == SeenBy(b.seen, u)
  }

  ghost predicate CallAt(t: Totals, evs: seq<Event>, user: Id, f: Filtered) {
    && SeenBy(t.seen, user) == f.seen
    && (forall u :: u != user ==> SeenBy(t.seen, u) == SeenBy(Run(evs).seen, u))
    && t.created == Run(evs).created + f.created
    && t.dedups == Run(evs).dedups + f.dedups
    && t.left == Run(evs).left + StillUnread(f.entries, |f.entries|)
  }

  /** A call is a run of its events. */
  lemma {:induction false} CallIsItsEvents(evs: seq<Event>, c: Call, k: nat)
    requires k <= |c.entries|
    ensures CallAt(Run(evs + EventsTo(c, k)), evs, c.user, FilterTo(SeenBy(Run(evs).seen, c.user), c.entries, k))
  {
    if k == 0 {
      assert evs + [] == evs;
    } else {
      CallIsItsEvents(evs, c, k - 1);
      var before, e := evs + EventsTo(c, k - 1), c.entries[k - 1];
      assert evs + EventsTo(c, k) == before + [Event(c.user, e)];
      CallStep(evs, before, c.user, FilterTo(SeenBy(Run(evs).seen, c.user), c.entries, k - 1), e);
    }
  }

  lemma CallStep(evs: seq<Event>, before: seq<Event>, user: Id, g: Filtered, e: EntryV)
    requires CallAt(Run(before), evs, user, g)
    ensures CallAt(Run(before + [Event(user, e)]), evs, user, FilterOne(g, e))
  {
    RunMore(before, Event(user, e));
    OneEvent(Run(before), g, user, e);
    StillUnreadMore(g.entries, FilterOne(g, e).entries[|g.entries|]);
  }

  lemma RunMore(evs: seq<Event>, ev: Event)
    ensures Run(evs + [ev]) == Apply(Run(evs), ev)
  {
  }

  lemma StillUnreadMore(es: seq<EntryV>, e: EntryV)
    ensures StillUnread(es + [e], |es| + 1) == StillUnread(es, |es|) + if e.status.Unread? then 1 else 0
  {
    StillUnreadPrefix(es, e, |es|);
  }

  lemma {:induction false} StillUnreadPrefix(es: seq<EntryV>, e: EntryV, k: nat)
    requires k <= |es|
    ensures StillUnread(es + [e], k) == StillUnread(es, k)
  {
    if k > 0 { StillUnreadPrefix(es, e, k - 1); }
  }

  lemma {:induction false} CallsAreTheirEvents(calls: seq<Call>)
    ensures Same(RunCalls(calls), Run(EventsOf(calls)))
  {
    if calls != [] {
      var init, c := calls[..|calls| - 1], calls[|calls| - 1];
      CallsAreTheirEvents(init);
      CallIsItsEvents(EventsOf(init), c, |c.entries|);
    }
  }

  lemma {:induction false} EventsPermute(a: seq<Call>, b: seq<Call>)
    requires multiset(a) == multiset(b)
    ensures multiset(EventsOf(a)) == multiset(EventsOf(b))
    decreases |a|
  {
    if a == [] {
      assert |multiset(b)| == 0;
    } else {
      var j := Match(a, b);
      EventsPermute(a[..|a| - 1], b[..j] + b[j + 1..]);
      EventsWithout(b, j);
    }
  }

  lemma {:induction false} EventsConcat(a: seq<Call>, b: seq<Call>)
    ensures EventsOf(a + b) == EventsOf(a) + EventsOf(b)
  {
    if b == [] {
      assert a + b == a;
    } else {
      var init, c := b[..|b| - 1], b[|b| - 1];
      var evs := EventsTo(c, |c.entries|);
      EventsConcat(a, init);
      assert a + b == (a + init) + [c];
      EventsMore(a + init, c);
      assert EventsOf(b) == EventsOf(init) + evs;
      Associative(EventsOf(a), EventsOf(init), evs);
    }
  }

  lemma Associative<T>(x: seq<T>, y: seq<T>, z: seq<T>)
    ensures (x + y) + z == x + (y + z)
  {
  }

  lemma EventsMore(calls: seq<Call>, c: Call)
    ensures EventsOf(calls + [c]) == EventsOf(calls) + EventsTo(c, |c.entries|)
  {
    assert (calls + [c])[..|calls|] == calls;
  }

  lemma EventsWithout(b: seq<Call>, j: nat)
    requires j < |b|
    ensures multiset(EventsOf(b)) == multiset(EventsOf(b[..j] + b[j + 1..])) + multiset(EventsTo(b[j], |b[j].entries|))
  {
    var x, y, z := EventsOf(b[..j]), EventsTo(b[j], |b[j].entries|), EventsOf(b[j + 1..]);
    assert EventsOf(b[..j] + b[j + 1..]) == x + z by { EventsConcat(b[..j], b[j + 1..]); }
    EventsSplit(b, j);
    Regroup(x, y, z);
  }

  lemma EventsSplit(b: seq<Call>, j: nat)
    requires j < |b|
    ensures EventsOf(b) == EventsOf(b[..j]) + EventsTo(b[j], |b[j].entries|) + EventsOf(b[j + 1..])
  {
    var head := b[..j + 1];
    assert head + b[j + 1..] == b;
    assert head[..j] == b[..j];
    assert EventsOf(head) == EventsOf(b[..j]) + EventsTo(b[j], |b[j].entries|);
    EventsConcat(head, b[j + 1..]);
  }

  lemma Regroup<T>(x: seq<T>, y: seq<T>, z: seq<T>)
    ensures multiset(x + y + z) == multiset(x + z) + multiset(y)
  {
  }

  /**
   The same calls in another order: `created` ends as the number of distinct (user, hash) pairs
   that the calls bring unread; and if these are clean, that is also the number of entries left
   unread, all the others being counted as dedups.
   */
  lemma FixedCallsCommute(a: seq<Call>, b: seq<Call>)
    requires multiset(a) == multiset(b)
    ensures RunCalls(a).created == RunCalls(b).created == |UnreadPairs(EventsOf(a))|
    ensures Clean(EventsOf(a)) ==>
      && RunCalls(a).left == RunCalls(b).left == RunCalls(a).created
      && RunCalls(a).dedups == RunCalls(b).dedups == UnreadCount(EventsOf(a)) - RunCalls(a).created
  {
    CallsAreTheirEvents(a);
    CallsAreTheirEvents(b);
    EventsPermute(a, b);
    OrderDoesNotMatter(EventsOf(a), EventsOf(b));
    CreatedCountsPairs(EventsOf(a));
    if Clean(EventsOf(a)) { CleanBatchAccounts(EventsOf(a)); }
  }

  lemma OneEvent(t: Totals, f: Filtered, user: Id, e: EntryV)
    requires SeenBy(t.seen, user) == f.seen
    ensures var t', f' := Apply(t, Event(user, e)), FilterOne(f, e);
      && SeenBy(t'.seen, user) == f'.seen
      && (forall u :: u != user ==> SeenBy(t'.seen, u) == SeenBy(t.seen, u))
      && t'.created - t.created == f'.created - f.created
      && t'.dedups - t.dedups == f'.dedups - f.dedups
      && t'.left - t.left == (if f'.entries[|f.entries|].status.Unread? then 1 else 0)
      && f'.entries == f.entries + [f'.entries[|f.entries|]]
  {
  }
}
