/**
 When the filter's counts depend on the order of the entries, exactly (internal/storage/dedup.go).
 The first feed that brings a hash unread leads it; every other copy is a duplicate.
 */
module DedupLeads {
  import opened RefreshSpec
  import opened DedupOrder

  /** The feed that leads each pair after the events. */
  function Leads(evs: seq<Event>): map<Pair, Id> {
    if evs == [] then map[] else
    var init, ev := Leads(evs[..|evs| - 1]), evs[|evs| - 1];
    if IsUnread(ev) && PairOf(ev) !in init then init[PairOf(ev) := ev.e.feedID] else init
  }

  /** The filter's maps are the leads. */
  lemma {:induction false} LeadsAreSeen(evs: seq<Event>, user: Id, h: Hash)
    ensures (user, h) in Leads(evs) <==> h in SeenBy(Run(evs).seen, user)
    ensures (user, h) in Leads(evs) ==> Leads(evs)[(user, h)] == SeenBy(Run(evs).seen, user)[h]
  {
    if evs != [] { LeadsAreSeen(evs[..|evs| - 1], user, h); }
  }

  ghost predicate Brings(evs: seq<Event>, p: Pair, feed: Id) {
    exists i :: 0 <= i < |evs| && IsUnread(evs[i]) && PairOf(evs[i]) == p && evs[i].e.feedID == feed
  }

  /** A choice of a leading feed for every pair that is brought unread. */
  ghost predicate IsChoice(leads: map<Pair, Id>, evs: seq<Event>) {
    && (forall i :: 0 <= i < |evs| && IsUnread(evs[i]) ==> PairOf(evs[i]) in leads)
    && (forall p :: p in leads ==> Brings(evs, p, leads[p]))
  }

  lemma {:induction false} LeadsAreChosen(evs: seq<Event>)
    ensures IsChoice(Leads(evs), evs)
  {
    if evs != [] {
      var n := |evs| - 1;
      LeadsAreChosen(evs[..n]);
      forall p | p in Leads(evs) ensures Brings(evs, p, Leads(evs)[p]) {
        if p in Leads(evs[..n]) {
          assert Brings(evs[..n], p, Leads(evs)[p]);
          var i :| 0 <= i < n && IsUnread(evs[..n][i]) && PairOf(evs[..n][i]) == p
            && evs[..n][i].e.feedID == Leads(evs)[p];
          assert evs[i] == evs[..n][i];
        } else {
          assert evs[n].e.feedID == Leads(evs)[p];
        }
      }
    }
  }

  /** Only the leads of the pairs in the events matter. */
  lemma {:induction false} TallyAgrees(evs: seq<Event>, l: map<Pair, Id>, m: map<Pair, Id>, all: bool)
    requires forall i :: 0 <= i < |evs| && IsUnread(evs[i]) ==> SameLead(l, m, PairOf(evs[i]))
    ensures Tally(evs, AwayFrom(l, all)) == Tally(evs, AwayFrom(m, all))
  {
    if evs != [] { TallyAgrees(evs[..|evs| - 1], l, m, all); }
  }

  predicate SameLead(l: map<Pair, Id>, m: map<Pair, Id>, p: Pair) { (p in l <==> p in m) && (p in l ==> l[p] == m[p]) }

  /** What the filter counts are the copies away from the leads. */
  lemma {:induction false} CountsAreAway(evs: seq<Event>)
    ensures Run(evs).dedups == Tally(evs, AwayFrom(Leads(evs), true))
    ensures Run(evs).left == UnreadCount(evs) - Tally(evs, AwayFrom(Leads(evs), false))
  {
    if evs != [] {
      var init, ev := evs[..|evs| - 1], evs[|evs| - 1];
      CountsAreAway(init);
      LeadsAreChosen(init);
      LeadsAreSeen(init, ev.user, ev.e.hash);
      TallyAgrees(init, Leads(init), Leads(evs), true);
      TallyAgrees(init, Leads(init), Leads(evs), false);
    }
  }

  /** Another feed leading a pair: its copies are no longer away, those of the former one are. */
  lemma {:induction false} LeadSwitched(evs: seq<Event>, leads: map<Pair, Id>, p: Pair, feed: Id, all: bool)
    requires p in leads
    ensures Tally(evs, AwayFrom(leads[p := feed], all))
         == Tally(evs, AwayFrom(leads, all)) + Tally(evs, CopyOf(p, leads[p], all)) - Tally(evs, CopyOf(p, feed, all))
  {
    if evs != [] { LeadSwitched(evs[..|evs| - 1], leads, p, feed, all); }
  }

  /** For every pair, all feeds that bring it unread bring it equally often. */
  ghost predicate Even(evs: seq<Event>, all: bool) {
    forall i, j :: 0 <= i < |evs| && 0 <= j < |evs| && SamePair(evs[i], evs[j]) ==>
      EquallyOften(evs, evs[i], evs[j], all)
  }

  predicate SamePair(x: Event, y: Event) { IsUnread(x) && IsUnread(y) && PairOf(x) == PairOf(y) }

  predicate EquallyOften(evs: seq<Event>, x: Event, y: Event, all: bool) {
    Tally(evs, CopyOf(PairOf(x), x.e.feedID, all)) == Tally(evs, CopyOf(PairOf(y), y.e.feedID, all))
  }

  /** The pairs that two choices give to different feeds. */
  function Apart(l: map<Pair, Id>, m: map<Pair, Id>): set<Pair> { set p | p in l && p in m && l[p] != m[p] }

  lemma ChoiceSwitched(evs: seq<Event>, l: map<Pair, Id>, p: Pair, feed: Id)
    requires IsChoice(l, evs) && p in l && Brings(evs, p, feed)
    ensures IsChoice(l[p := feed], evs)
  {
  }

  lemma ApartShrinks(l: map<Pair, Id>, m: map<Pair, Id>, p: Pair)
    requires p in Apart(l, m)
    ensures Apart(l[p := m[p]], m) == Apart(l, m) - {p}
  {
  }

  /** With evenness one pair can go over to another feed without changing the count. */
  lemma EvenSwitch(evs: seq<Event>, l: map<Pair, Id>, p: Pair, feed: Id, all: bool)
    requires Even(evs, all) && p in l && Brings(evs, p, l[p]) && Brings(evs, p, feed)
    ensures Tally(evs, AwayFrom(l[p := feed], all)) == Tally(evs, AwayFrom(l, all))
  {
    var i :| 0 <= i < |evs| && IsUnread(evs[i]) && PairOf(evs[i]) == p && evs[i].e.feedID == l[p];
    var j :| 0 <= j < |evs| && IsUnread(evs[j]) && PairOf(evs[j]) == p && evs[j].e.feedID == feed;
    assert SamePair(evs[i], evs[j]);
    assert EquallyOften(evs, evs[i], evs[j], all);
    LeadSwitched(evs, l, p, feed, all);
  }

  lemma GoOver(evs: seq<Event>, l: map<Pair, Id>, m: map<Pair, Id>, p: Pair, all: bool)
    requires Even(evs, all) && IsChoice(l, evs) && IsChoice(m, evs) && p in Apart(l, m)
    ensures IsChoice(l[p := m[p]], evs) && |Apart(l[p := m[p]], m)| < |Apart(l, m)|
    ensures Tally(evs, AwayFrom(l[p := m[p]], all)) == Tally(evs, AwayFrom(l, all))
  {
    assert Brings(evs, p, l[p]) && Brings(evs, p, m[p]);
    EvenSwitch(evs, l, p, m[p], all);
    ChoiceSwitched(evs, l, p, m[p]);
    ApartShrinks(l, m, p);
  }

  /** Then it does not matter which feeds lead. */
  lemma {:induction false} EvenChoices(evs: seq<Event>, l: map<Pair, Id>, m: map<Pair, Id>, all: bool)
    requires Even(evs, all) && IsChoice(l, evs) && IsChoice(m, evs)
    ensures Tally(evs, AwayFrom(l, all)) == Tally(evs, AwayFrom(m, all))
    decreases |Apart(l, m)|
  {
    if p :| p in Apart(l, m) {
      GoOver(evs, l, m, p, all);
      EvenChoices(evs, l[p := m[p]], m, all);
    } else {
      NotApartAgree(evs, l, m, all);
    }
  }

  lemma NotApartAgree(evs: seq<Event>, l: map<Pair, Id>, m: map<Pair, Id>, all: bool)
    requires IsChoice(l, evs) && IsChoice(m, evs) && Apart(l, m) == {}
    ensures Tally(evs, AwayFrom(l, all)) == Tally(evs, AwayFrom(m, all))
  {
    forall i | 0 <= i < |evs| && IsUnread(evs[i]) ensures SameLead(l, m, PairOf(evs[i])) {
      assert PairOf(evs[i]) !in Apart(l, m);
    }
    TallyAgrees(evs, l, m, all);
  }

  // ---- an order in which a chosen event comes first ----

  lemma {:induction false} LeadsConcat(a: seq<Event>, b: seq<Event>)
    ensures Leads(a + b) == Leads(b) + Leads(a)
  {
    if b == [] {
      assert a + b == a;
    } else {
      assert (a + b)[..|a + b| - 1] == a + b[..|b| - 1];
      LeadsConcat(a, b[..|b| - 1]);
    }
  }

  function First(evs: seq<Event>, i: nat): seq<Event>
    requires i < |evs|
  {
    [evs[i]] + (evs[..i] + evs[i + 1..])
  }

  lemma FirstPermutes(evs: seq<Event>, i: nat)
    requires i < |evs|
    ensures multiset(First(evs, i)) == multiset(evs)
  {
    RemoveAt(evs, i);
  }

  lemma LeadsOfThree(a: seq<Event>, b: seq<Event>, c: seq<Event>)
    ensures Leads(a + (b + c)) == (Leads(c) + Leads(b)) + Leads(a)
  {
    LeadsConcat(a, b + c);
    LeadsConcat(b, c);
  }

  lemma PutFirst(pre: seq<Event>, ev: Event, post: seq<Event>)
    requires IsUnread(ev)
    ensures Leads([ev] + (pre + post)) == Leads(pre + ([ev] + post))[PairOf(ev) := ev.e.feedID]
  {
    OneLead(ev);
    LeadsOfThree([ev], pre, post);
    LeadsOfThree(pre, [ev], post);
    LeadOverrides(Leads(post), Leads(pre), PairOf(ev), ev.e.feedID);
  }

  /** The first event leads its pair; the other leads are as they were. */
  lemma FirstLeads(evs: seq<Event>, i: nat)
    requires i < |evs| && IsUnread(evs[i])
    ensures Leads(First(evs, i)) == Leads(evs)[PairOf(evs[i]) := evs[i].e.feedID]
  {
    PutFirst(evs[..i], evs[i], evs[i + 1..]);
    assert evs == evs[..i] + ([evs[i]] + evs[i + 1..]);
  }

  lemma LeadOverrides(post: map<Pair, Id>, pre: map<Pair, Id>, p: Pair, feed: Id)
    ensures (post + pre) + map[p := feed] == ((post + map[p := feed]) + pre)[p := feed]
  {
  }

  lemma OneLead(ev: Event)
    requires IsUnread(ev)
    ensures Leads([ev]) == map[PairOf(ev) := ev.e.feedID]
  {
    assert [ev][..0] == [];
  }

  /** How much is away after the events in their own order. */
  function Away(evs: seq<Event>, all: bool): nat { Tally(evs, AwayFrom(Leads(evs), all)) }

  ghost predicate OrderFree(a: seq<Event>, all: bool) {
    forall b: seq<Event> :: multiset(b) == multiset(a) ==> Away(b, all) == Away(a, all)
  }

  lemma EvenIsOrderFree(a: seq<Event>, b: seq<Event>, all: bool)
    requires Even(a, all) && multiset(a) == multiset(b)
    ensures Away(b, all) == Away(a, all)
  {
    LeadsAreChosen(a);
    LeadsAreChosen(b);
    ChoicePermutes(a, b, Leads(b));
    SameTally(a, b, AwayFrom(Leads(b), all));
    EvenChoices(a, Leads(a), Leads(b), all);
  }

  lemma ChoicePermutes(a: seq<Event>, b: seq<Event>, leads: map<Pair, Id>)
    requires multiset(a) == multiset(b) && IsChoice(leads, b)
    ensures IsChoice(leads, a)
  {
    forall i | 0 <= i < |a| && IsUnread(a[i]) ensures PairOf(a[i]) in leads {
      assert a[i] in multiset(b);
      var j :| 0 <= j < |b| && b[j] == a[i];
    }
    forall p | p in leads ensures Brings(a, p, leads[p]) {
      assert Brings(b, p, leads[p]);
      var j :| 0 <= j < |b| && IsUnread(b[j]) && PairOf(b[j]) == p && b[j].e.feedID == leads[p];
      assert b[j] in multiset(a);
      var i :| 0 <= i < |a| && a[i] == b[j];
    }
  }

  /** Two events of a pair whose feeds bring it unequally often, each put first, give different counts. */
  lemma UnevenDiffers(a: seq<Event>, i: nat, j: nat, all: bool)
    requires i < |a| && j < |a| && SamePair(a[i], a[j]) && !EquallyOften(a, a[i], a[j], all)
    ensures multiset(First(a, i)) == multiset(a) == multiset(First(a, j))
    ensures Away(First(a, i), all) != Away(First(a, j), all)
  {
    var p, f, g := PairOf(a[i]), a[i].e.feedID, a[j].e.feedID;
    FirstPermutes(a, i);
    FirstPermutes(a, j);
    FirstLeads(a, i);
    FirstLeads(a, j);
    var l, m := Leads(First(a, i)), Leads(First(a, j));
    SameTally(First(a, i), a, AwayFrom(l, all));
    SameTally(First(a, j), a, AwayFrom(m, all));
    assert m == l[p := g];
    LeadSwitched(a, l, p, g, all);
  }

  lemma OrderFreeIff(a: seq<Event>, all: bool)
    ensures OrderFree(a, all) <==> Even(a, all)
  {
    if Even(a, all) {
      forall b: seq<Event> | multiset(b) == multiset(a) ensures Away(b, all) == Away(a, all) {
        EvenIsOrderFree(a, b, all);
      }
    } else {
      var i, j :| 0 <= i < |a| && 0 <= j < |a| && SamePair(a[i], a[j]) && !EquallyOften(a, a[i], a[j], all);
      UnevenDiffers(a, i, j, all);
    }
  }

  // ---- the counters ----

  /** Every order of the entries gives the same number of dedups. */
  ghost predicate DedupsOrderFree(a: seq<Event>) {
    forall b: seq<Event> :: multiset(b) == multiset(a) ==> Run(b).dedups == Run(a).dedups
  }

  /** Every order of the entries leaves the same number unread. */
  ghost predicate LeftOrderFree(a: seq<Event>) {
    forall b: seq<Event> :: multiset(b) == multiset(a) ==> Run(b).left == Run(a).left
  }

  /** Exactly when all feeds that bring a pair unread bring it equally often. */
  lemma DedupsOrderFreeIff(a: seq<Event>)
    ensures DedupsOrderFree(a) <==> Even(a, true)
  {
    OrderFreeIff(a, true);
    forall b: seq<Event> | multiset(b) == multiset(a) ensures Run(b).dedups == Away(b, true) { CountsAreAway(b); }
    CountsAreAway(a);
    if DedupsOrderFree(a) {
      forall b: seq<Event> | multiset(b) == multiset(a) ensures Away(b, true) == Away(a, true) {
        assert Run(b).dedups == Run(a).dedups;
      }
    }
  }

  /** For the entries left unread, exactly when they bring it equally often not counting imported copies. */
  lemma LeftOrderFreeIff(a: seq<Event>)
    ensures LeftOrderFree(a) <==> Even(a, false)
  {
    OrderFreeIff(a, false);
    CountsAreAway(a);
    forall b: seq<Event> | multiset(b) == multiset(a) ensures Run(b).left == UnreadCount(a) - Away(b, false) {
      CountsAreAway(b);
      SameTally(a, b, AnyUnread);
    }
    if LeftOrderFree(a) {
      forall b: seq<Event> | multiset(b) == multiset(a) ensures Away(b, false) == Away(a, false) {
        assert Run(b).left == Run(a).left;
      }
    }
  }

  /** For whole calls of the filter, evenness is enough. */
  lemma EvenCallsCommute(a: seq<Call>, b: seq<Call>)
    requires multiset(a) == multiset(b)
    ensures Even(EventsOf(a), true) ==> RunCalls(a).dedups == RunCalls(b).dedups
    ensures Even(EventsOf(a), false) ==> RunCalls(a).left == RunCalls(b).left
  {
    CallsAreTheirEvents(a);
    CallsAreTheirEvents(b);
    EventsPermute(a, b);
    DedupsOrderFreeIff(EventsOf(a));
    LeftOrderFreeIff(EventsOf(a));
  }
}
