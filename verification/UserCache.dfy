/**
 The per-batch user cache (internal/worker/cache.go): a map behind a read-write lock, filled
 through a singleflight group. Any number of workers call `UserByID` at the same time; every
 step below is one critical section or one answer of the store.
 */
module UserCache {

  type Id = int
  /** Identity of a `*model.User`; every successful fetch allocates a new one. */
  type User = nat

  datatype Answer = Found(user: User) | Failed

  datatype Pc =
    | Looking            // first userFromMap, outside the group
    | Entering           // about to call sg.Do
    | Leading            // inside the flight, second userFromMap
    | Fetching           // store.UserByID
    | Remembering(user: User)
    | Returning(answer: Answer) // the flight's function returned, the group not yet told
    | Following(leader: nat)    // waits for the flight of another call
    | Done(answer: Answer)

  datatype Call = Call(id: Id, pc: Pc)

  datatype State = State(
    users: map<Id, User>,
    flights: map<Id, nat>,  // calls in flight, by key
    calls: seq<Call>,
    miss: nat,
    fetched: seq<Id>)       // successful fetches, in order; the k-th allocated user k

  datatype Step =
    | Arrive(id: Id)
    | Look(k: nat)
    | Enter(k: nat)
    | LookAgain(k: nat)
    | Fetch(k: nat, ok: bool)
    | Remember(k: nat)
    | Publish(k: nat)
    | Wake(k: nat)

  const EMPTY := State(map[], map[], [], 0, [])

  predicate Enabled(s: State, step: Step) {
    match step
    case Arrive(_) => true
    case Look(k) => k < |s.calls| && s.calls[k].pc.Looking?
    case Enter(k) => k < |s.calls| && s.calls[k].pc.Entering?
    case LookAgain(k) => k < |s.calls| && s.calls[k].pc.Leading?
    case Fetch(k, _) => k < |s.calls| && s.calls[k].pc.Fetching?
    case Remember(k) => k < |s.calls| && s.calls[k].pc.Remembering?
    case Publish(k) => k < |s.calls| && s.calls[k].pc.Returning?
    case Wake(k) => k < |s.calls| && s.calls[k].pc.Following? && s.calls[k].pc.leader < |s.calls|
                    && s.calls[s.calls[k].pc.leader].pc.Done?
  }

  function Goto(s: State, k: nat, pc: Pc): State
    requires k < |s.calls|
  {
    s.(calls := s.calls[k := s.calls[k].(pc := pc)])
  }

  function Do(s: State, step: Step): State
    requires Enabled(s, step)
  {
    match step
    case Arrive(id) => s.(calls := s.calls + [Call(id, Looking)])
    case Look(k) =>
      var id := s.calls[k].id;
      Goto(s, k, if id in s.users then Done(Found(s.users[id])) else Entering)
    case Enter(k) =>
      var id := s.calls[k].id;
      if id in s.flights then Goto(s, k, Following(s.flights[id]))
      else Goto(s.(flights := s.flights[id := k]), k, Leading)
    case LookAgain(k) =>
      var id := s.calls[k].id;
      Goto(s, k, if id in s.users then Returning(Found(s.users[id])) else Fetching)
    case Fetch(k, ok) =>
      if ok then Goto(s.(fetched := s.fetched + [s.calls[k].id]), k, Remembering(|s.fetched|))
      else Goto(s, k, Returning(Failed))
    case Remember(k) =>
      var u := s.calls[k].pc.user;
      Goto(s.(users := s.users[s.calls[k].id := u], miss := s.miss + 1), k, Returning(Found(u)))
    case Publish(k) =>
      Goto(s.(flights := s.flights - {s.calls[k].id}), k, Done(s.calls[k].pc.answer))
    case Wake(k) => Goto(s, k, s.calls[s.calls[k].pc.leader].pc)
  }

  // ---- the invariant ----

  predicate InFlight(pc: Pc) { pc.Leading? || pc.Fetching? || pc.Remembering? || pc.Returning? }

  ghost predicate FlightsAreCalls(s: State) {
    forall id :: id in s.flights ==>
      s.flights[id] < |s.calls| && s.calls[s.flights[id]].id == id && InFlight(s.calls[s.flights[id]].pc)
  }

  ghost predicate LeadersAreKnown(s: State) {
    forall k :: 0 <= k < |s.calls| && InFlight(s.calls[k].pc) ==>
      s.calls[k].id in s.flights && s.flights[s.calls[k].id] == k
  }

  /** At most one call per id is inside the group, and the group knows it. */
  ghost predicate OneLeader(s: State) { FlightsAreCalls(s) && LeadersAreKnown(s) }

  ghost predicate Followers(s: State) {
    forall k :: 0 <= k < |s.calls| && s.calls[k].pc.Following? ==>
      var l := s.calls[k].pc.leader;
      l < |s.calls| && s.calls[l].id == s.calls[k].id && (InFlight(s.calls[l].pc) || s.calls[l].pc.Done?)
  }

  /** Nobody fetches a user the map already holds. */
  ghost predicate FetchedOnce(s: State) {
    && (forall k :: 0 <= k < |s.calls| && (s.calls[k].pc.Fetching? || s.calls[k].pc.Remembering?) ==>
      s.calls[k].id !in s.users)
    && (forall k :: 0 <= k < |s.calls| && s.calls[k].pc.Remembering? ==>
          s.calls[k].pc.user < |s.fetched| && s.fetched[s.calls[k].pc.user] == s.calls[k].id)
    && (forall id :: id in s.users ==> s.users[id] < |s.fetched| && s.fetched[s.users[id]] == id)
    && (forall j :: 0 <= j < |s.fetched| ==> Owned(s, j))
  }

  /** The `j`-th fetched user is in the map, or on its way there. */
  ghost predicate Owned(s: State, j: nat)
    requires j < |s.fetched|
  {
    var id := s.fetched[j];
    || (id in s.users && s.users[id] == j)
    || (id in s.flights && s.flights[id] < |s.calls| && s.calls[s.flights[id]].pc == Remembering(j))
  }

  predicate Answers(pc: Pc) { pc.Returning? || pc.Done? }

  ghost predicate SameObject(s: State) {
    forall k :: 0 <= k < |s.calls| && Answers(s.calls[k].pc) && s.calls[k].pc.answer.Found? ==>
      s.calls[k].id in s.users && s.users[s.calls[k].id] == s.calls[k].pc.answer.user
  }

  ghost predicate Inv(s: State) {
    OneLeader(s) && Followers(s) && FetchedOnce(s) && SameObject(s) && s.miss == |s.users|
  }

  lemma StepOneLeader(s: State, step: Step)
    requires OneLeader(s) && Enabled(s, step)
    ensures OneLeader(Do(s, step))
  {
    StepFlights(s, step);
    StepLeaders(s, step);
  }

  lemma StepFlights(s: State, step: Step)
    requires OneLeader(s) && Enabled(s, step)
    ensures FlightsAreCalls(Do(s, step))
  {
  }

  lemma StepLeaders(s: State, step: Step)
    requires OneLeader(s) && Enabled(s, step)
    ensures LeadersAreKnown(Do(s, step))
  {
  }

  lemma StepFollowers(s: State, step: Step)
    requires OneLeader(s) && Followers(s) && Enabled(s, step)
    ensures Followers(Do(s, step))
  {
  }

  lemma StepFetchedOnce(s: State, step: Step)
    requires OneLeader(s) && FetchedOnce(s) && Enabled(s, step)
    ensures FetchedOnce(Do(s, step))
  {
    var t := Do(s, step);
    assert forall j :: 0 <= j < |s.fetched| ==> Owned(s, j);
    forall j | 0 <= j < |t.fetched| ensures Owned(t, j) {
      if j < |s.fetched| { assert Owned(s, j); }
    }
  }

  lemma StepSameObject(s: State, step: Step)
    requires OneLeader(s) && Followers(s) && FetchedOnce(s) && SameObject(s) && Enabled(s, step)
    ensures SameObject(Do(s, step))
  {
  }

  /** Every step of every caller keeps the invariant. */
  lemma StepInv(s: State, step: Step)
    requires Inv(s) && Enabled(s, step)
    ensures Inv(Do(s, step))
  {
    StepOneLeader(s, step);
    StepFollowers(s, step);
    StepFetchedOnce(s, step);
    StepSameObject(s, step);
  }

  // ---- runs ----

  ghost predicate IsRun(s: State, steps: seq<Step>)
    decreases |steps|
  {
    steps == [] || (Enabled(s, steps[0]) && IsRun(Do(s, steps[0]), steps[1..]))
  }

  ghost function After(s: State, steps: seq<Step>): State
    requires IsRun(s, steps)
    decreases |steps|
  {
    if steps == [] then s else After(Do(s, steps[0]), steps[1..])
  }

  lemma {:induction false} RunInv(s: State, steps: seq<Step>)
    requires Inv(s) && IsRun(s, steps)
    ensures Inv(After(s, steps))
    decreases |steps|
  {
    if steps != [] {
      StepInv(s, steps[0]);
      RunInv(Do(s, steps[0]), steps[1..]);
    }
  }

  /** Each user is fetched successfully at most once a batch, however the callers interleave. */
  lemma AtMostOneFetch(steps: seq<Step>, i: nat, j: nat)
    requires IsRun(EMPTY, steps)
    ensures var s := After(EMPTY, steps); i < j < |s.fetched| ==> s.fetched[i] != s.fetched[j]
  {
    RunInv(EMPTY, steps);
    var s := After(EMPTY, steps);
    if i < j < |s.fetched| { assert Owned(s, i) && Owned(s, j); }
  }

  /** The miss counter is the number of cached users. */
  lemma MissCountsUsers(steps: seq<Step>)
    requires IsRun(EMPTY, steps)
    ensures After(EMPTY, steps).miss == |After(EMPTY, steps).users|
  {
    RunInv(EMPTY, steps);
  }

  predicate Successful(s: State, k: nat) { k < |s.calls| && s.calls[k].pc.Done? && s.calls[k].pc.answer.Found? }

  /** All successful lookups of one id get the same object. */
  lemma LookupsAgree(steps: seq<Step>, i: nat, j: nat)
    requires IsRun(EMPTY, steps)
    requires var s := After(EMPTY, steps); Successful(s, i) && Successful(s, j) && s.calls[i].id == s.calls[j].id
    ensures var s := After(EMPTY, steps); s.calls[i].pc.answer.user == s.calls[j].pc.answer.user
  {
    RunInv(EMPTY, steps);
  }

  /** No caller waits forever: while one has no answer, some caller can move. */
  lemma NeverStuck(steps: seq<Step>, k: nat) returns (step: Step)
    requires IsRun(EMPTY, steps) && k < |After(EMPTY, steps).calls| && !After(EMPTY, steps).calls[k].pc.Done?
    ensures Enabled(After(EMPTY, steps), step) && !step.Arrive?
  {
    RunInv(EMPTY, steps);
    var s := After(EMPTY, steps);
    var m := if s.calls[k].pc.Following? && !s.calls[s.calls[k].pc.leader].pc.Done? then s.calls[k].pc.leader else k;
    match s.calls[m].pc
    case Looking => step := Look(m);
    case Entering => step := Enter(m);
    case Leading => step := LookAgain(m);
    case Fetching => step := Fetch(m, true);
    case Remembering(_) => step := Remember(m);
    case Returning(_) => step := Publish(m);
    case Following(_) => step := Wake(m);
  }
}
