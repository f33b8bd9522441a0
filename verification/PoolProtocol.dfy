/**
 The worker pool (internal/worker/pool.go) as a protocol: one `Push` hands the items of a batch
 through an unbuffered channel to `Run`, which starts at most `limit` workers. Every step below
 is one atomic action of one goroutine; any enabled step may come next, and both contexts may be
 cancelled at any moment.
 */
module PoolProtocol {
  import opened Prelude

  type Error = int

  /** What `handler.RefreshFeed` gives: a feed that is merely bad leaves `job.err` unset. */
  datatype Outcome = Refreshed | BadFeed | Failed(error: Error)

  /** `limit` is config.WorkerPoolSize(), validated to be at least 1 (internal/config/options.go). */
  datatype Config = Config(size: nat, limit: nat)

  ghost predicate ValidConfig(c: Config) { c.limit >= 1 }

  /** Where an item is on its way through the pool. */
  datatype Phase =
    | Pending             // not handed over yet
    | Received            // taken from the channel by Run, its goroutine not started
    | Working             // in refreshFeed
    | Judged(o: Outcome)  // refreshFeed returned, job.err written
    | Ended(o: Outcome)   // item.end() called
    | Finished(o: Outcome) // item.refreshed written, goroutine gone

  /** Program counter of Push. */
  datatype PushPc =
    | Sending             // in jobsLoop
    | Checking            // at the switch behind the loop
    | Waiting             // in wg.Wait()
    | Scanning(k: nat)    // looking for the first item with an error
    | Done                // returned after setErr
    | Abandoned           // returned because a context was cancelled

  /** Program counter of Run. */
  datatype RunPc = Selecting | Starting(job: nat) | Stopped

  datatype State = State(
    push: PushPc,
    sent: nat,                 // items handed over so far; the loop variable of jobsLoop
    run: RunPc,
    phase: seq<Phase>,
    err: seq<Option<Error>>,   // queueItem.err
    refreshed: seq<bool>,      // queueItem.refreshed != nil
    wg: int,                   // counter of the wait group
    active: int,               // goroutines of the errgroup
    poolCancelled: bool,
    batchCancelled: bool,
    poolErr: Option<Error>,    // Pool.err
    started: seq<nat>)         // every item a worker was started for, in order

  datatype Step =
    | Send                        // channel rendezvous of Push and Run
    | LeaveLoop                   // Push: a context is done, or all items are sent
    | Check                       // Push: the switch behind the loop
    | EndWait                     // Push: wg.Wait() returns
    | Scan                        // Push: one iteration of the error loop
    | Start                       // Run: errgroup.Go gets a slot
    | StopRun                     // Run: sees the cancelled context
    | Judge(i: nat, o: Outcome)   // worker: refreshFeed returns
    | End(i: nat)                 // worker: item.end()
    | Finish(i: nat)              // worker: writes item.refreshed, returns
    | CancelPool                  // environment
    | CancelBatch                 // environment

  function Init(c: Config, poolErr: Option<Error>): State {
    State(Sending, 0, Selecting,
      seq(c.size, i => Pending), seq(c.size, i => None), seq(c.size, i => false),
      c.size, 0, false, false, poolErr, [])
  }

  predicate Enabled(c: Config, s: State, step: Step) {
    match step
    case Send => s.push.Sending? && s.sent < c.size && s.run.Selecting?
    case LeaveLoop => s.push.Sending? && (s.poolCancelled || s.batchCancelled || s.sent == c.size)
    case Check => s.push.Checking?
    case EndWait => s.push.Waiting? && s.wg == 0
    case Scan => s.push.Scanning?
    case Start => s.run.Starting? && s.active < c.limit
    case StopRun => s.run.Selecting? && s.poolCancelled
    case Judge(i, _) => i < |s.phase| && s.phase[i].Working?
    case End(i) => i < |s.phase| && s.phase[i].Judged?
    case Finish(i) => i < |s.phase| && s.phase[i].Ended?
    case CancelPool => !s.poolCancelled
    case CancelBatch => !s.batchCancelled
  }

  function ErrorOf(o: Outcome): Option<Error> {
    if o.Failed? then Some(o.error) else None
  }

  /** `wg.Done()` panics on a negative counter; the state keeps it as an `int` so that this can be ruled out. */
  function Do(c: Config, s: State, step: Step): State
    requires Shape(c, s) && Enabled(c, s, step)
  {
    match step
    case Send =>
      s.(sent := s.sent + 1, run := Starting(s.sent), phase := s.phase[s.sent := Received])
    case LeaveLoop => s.(push := Checking)
    case Check => s.(push := if s.poolCancelled || s.batchCancelled then Abandoned else Waiting)
    case EndWait => s.(push := Scanning(0))
    case Scan =>
      var k := s.push.k;
      if k >= c.size then s.(push := Done, poolErr := None)
      else if s.err[k].Some? then s.(push := Done, poolErr := s.err[k])
      else s.(push := Scanning(k + 1))
    case Start =>
      var j := s.run.job;
      s.(run := Selecting, active := s.active + 1, phase := s.phase[j := Working], started := s.started + [j])
    case StopRun => s.(run := Stopped)
    case Judge(i, o) => s.(phase := s.phase[i := Judged(o)], err := s.err[i := ErrorOf(o)])
    case End(i) => s.(phase := s.phase[i := Ended(s.phase[i].o)], wg := s.wg - 1)
    case Finish(i) =>
      s.(phase := s.phase[i := Finished(s.phase[i].o)], active := s.active - 1,
         refreshed := s.refreshed[i := s.phase[i].o.Refreshed?])
    case CancelPool => s.(poolCancelled := true)
    case CancelBatch => s.(batchCancelled := true)
  }

  predicate Shape(c: Config, s: State) {
    && |s.phase| == c.size && |s.err| == c.size && |s.refreshed| == c.size
    && s.sent <= c.size
    && (s.run.Starting? ==> s.run.job < c.size)
  }

  // ---- counting phases ----

  function Open(p: Phase): nat { if p.Ended? || p.Finished? then 0 else 1 }

  function Occupies(p: Phase): nat { if p.Working? || p.Judged? || p.Ended? then 1 else 0 }

  /** Items that have not called `item.end()`. */
  function OpenCount(ps: seq<Phase>): nat {
    if ps == [] then 0 else OpenCount(ps[..|ps| - 1]) + Open(ps[|ps| - 1])
  }

  /** Items whose goroutine holds a slot of the errgroup. */
  function ActiveCount(ps: seq<Phase>): nat {
    if ps == [] then 0 else ActiveCount(ps[..|ps| - 1]) + Occupies(ps[|ps| - 1])
  }

  function Work(p: Phase): nat {
    match p
    case Pending => 5
    case Received => 4
    case Working => 3
    case Judged(_) => 2
    case Ended(_) => 1
    case Finished(_) => 0
  }

  function TotalWork(ps: seq<Phase>): nat {
    if ps == [] then 0 else TotalWork(ps[..|ps| - 1]) + Work(ps[|ps| - 1])
  }

  lemma {:induction false} UpdateCounts(ps: seq<Phase>, i: nat, p: Phase)
    requires i < |ps|
    ensures OpenCount(ps[i := p]) - OpenCount(ps) == Open(p) - Open(ps[i])
    ensures ActiveCount(ps[i := p]) - ActiveCount(ps) == Occupies(p) - Occupies(ps[i])
    ensures TotalWork(ps[i := p]) - TotalWork(ps) == Work(p) - Work(ps[i])
  {
    var last := |ps| - 1;
    if i == last {
      assert ps[i := p][..last] == ps[..last];
    } else {
      UpdateCounts(ps[..last], i, p);
      assert ps[i := p][..last] == ps[..last][i := p];
    }
  }

  lemma {:induction false} CountZero(ps: seq<Phase>)
    ensures OpenCount(ps) == 0 <==> forall i :: 0 <= i < |ps| ==> ps[i].Ended? || ps[i].Finished?
    ensures ActiveCount(ps) > 0 <==> exists i :: 0 <= i < |ps| && (ps[i].Working? || ps[i].Judged? || ps[i].Ended?)
  {
    if ps != [] { CountZero(ps[..|ps| - 1]); }
  }

  // ---- the invariant ----

  /** Position of the worker pipeline: item `i` was handed to a worker exactly when it left Received. */
  ghost predicate Pipeline(c: Config, s: State)
    requires Shape(c, s)
  {
    && (forall i :: 0 <= i < c.size ==> (s.phase[i].Pending? <==> i >= s.sent))
    && (s.run.Starting? ==> s.run.job == s.sent - 1)
    && (forall i :: 0 <= i < c.size ==> (s.phase[i].Received? <==> s.run == Starting(i)))
    && s.started == seq(if s.run.Starting? then s.sent - 1 else s.sent, i => i)
  }

  ghost predicate Counters(c: Config, s: State)
    requires Shape(c, s)
  {
    && s.wg == OpenCount(s.phase)
    && s.active == ActiveCount(s.phase) <= c.limit
  }

  ghost predicate Errors(c: Config, s: State)
    requires Shape(c, s)
  {
    forall i :: 0 <= i < c.size ==> s.err[i] == ErrorIn(s.phase[i])
  }

  /** What `job.err` holds of an item in this phase. */
  function ErrorIn(p: Phase): Option<Error> {
    if p.Judged? || p.Ended? || p.Finished? then ErrorOf(p.o) else None
  }

  ghost predicate Contexts(c: Config, s: State)
    requires Shape(c, s)
  {
    && (s.run.Stopped? ==> s.poolCancelled)
    && (s.push.Abandoned? ==> s.poolCancelled || s.batchCancelled)
    && (s.push.Waiting? || s.push.Scanning? || s.push.Done? ==> s.sent == c.size)
    && (s.push.Checking? ==> s.sent == c.size || s.poolCancelled || s.batchCancelled)
  }

  ghost predicate Scanned(c: Config, s: State)
    requires Shape(c, s)
  {
    && (s.push.Scanning? || s.push.Done? ==> s.wg == 0)
    && (s.push.Scanning? ==> s.push.k <= c.size && forall i :: 0 <= i < s.push.k ==> s.err[i].None?)
    && (s.push.Done? ==> s.poolErr == FirstError(s.err))
  }

  /** `item.refreshed` is set exactly when the goroutine of a refreshed feed is gone. */
  ghost predicate Results(c: Config, s: State)
    requires Shape(c, s)
  {
    forall i :: 0 <= i < c.size ==> (s.refreshed[i] <==> s.phase[i] == Finished(Refreshed))
  }

  ghost predicate Inv(c: Config, s: State) {
    Shape(c, s) && Pipeline(c, s) && Counters(c, s) && Errors(c, s) && Results(c, s) && Contexts(c, s) && Scanned(c, s)
  }

  /** The error of the lowest-index item that has one. */
  function FirstError(err: seq<Option<Error>>): (r: Option<Error>)
    ensures r.None? <==> forall i :: 0 <= i < |err| ==> err[i].None?
    ensures r.Some? ==> exists i :: 0 <= i < |err| && err[i] == r && forall j :: 0 <= j < i ==> err[j].None?
  {
    if err == [] then None else if err[0].Some? then err[0] else
    var r := FirstError(err[1..]);
    assert forall i :: 1 <= i < |err| ==> err[i] == err[1..][i - 1];
    assert r.Some? ==> exists i :: 0 <= i < |err| && err[i] == r && forall j :: 0 <= j < i ==> err[j].None? by {
      if r.Some? {
        var i :| 0 <= i < |err[1..]| && err[1..][i] == r && forall j :: 0 <= j < i ==> err[1..][j].None?;
        assert err[i + 1] == r && forall j :: 0 <= j < i + 1 ==> err[j].None?;
      }
    }
    r
  }

  lemma FirstErrorIs(err: seq<Option<Error>>, k: nat)
    requires k <= |err| && forall i :: 0 <= i < k ==> err[i].None?
    ensures k == |err| ==> FirstError(err).None?
    ensures k < |err| && err[k].Some? ==> FirstError(err) == err[k]
  {
  }

  lemma InitInv(c: Config, poolErr: Option<Error>)
    requires ValidConfig(c)
    ensures Inv(c, Init(c, poolErr))
  {
    AllPending(seq(c.size, i => Pending));
  }

  lemma {:induction false} AllPending(ps: seq<Phase>)
    requires forall i :: 0 <= i < |ps| ==> ps[i].Pending?
    ensures OpenCount(ps) == |ps| && ActiveCount(ps) == 0
    ensures TotalWork(ps) == 5 * |ps|
  {
    if ps != [] { AllPending(ps[..|ps| - 1]); }
  }

  lemma StepPipeline(c: Config, s: State, step: Step)
    requires Shape(c, s) && Pipeline(c, s) && Enabled(c, s, step)
    ensures Shape(c, Do(c, s, step)) && Pipeline(c, Do(c, s, step))
  {
    match step
    case Send => SendPipeline(c, s);
    case Start => StartPipeline(c, s);
    case _ =>
  }

  lemma SendPipeline(c: Config, s: State)
    requires Shape(c, s) && Pipeline(c, s) && Enabled(c, s, Send)
    ensures Shape(c, Do(c, s, Send)) && Pipeline(c, Do(c, s, Send))
  {
  }

  lemma StartPipeline(c: Config, s: State)
    requires Shape(c, s) && Pipeline(c, s) && Enabled(c, s, Start)
    ensures Shape(c, Do(c, s, Start)) && Pipeline(c, Do(c, s, Start))
  {
  }

  /** The one phase a step changes. */
  ghost predicate Moves(c: Config, s: State, step: Step, i: nat, p: Phase)
    requires Shape(c, s) && Enabled(c, s, step)
  {
    match step
    case Send => i == s.sent && p == Received
    case Start => i == s.run.job && p == Working
    case Judge(j, o) => i == j && p == Judged(o)
    case End(j) => i == j && p == Ended(s.phase[i].o)
    case Finish(j) => i == j && p == Finished(s.phase[i].o)
    case _ => false
  }

  lemma StepPhases(c: Config, s: State, step: Step) returns (i: nat, p: Phase)
    requires Shape(c, s) && Enabled(c, s, step)
    ensures Moves(c, s, step, i, p) ==> i < c.size && Do(c, s, step).phase == s.phase[i := p]
    ensures !Moves(c, s, step, i, p) ==> Do(c, s, step).phase == s.phase
    ensures step.Send? || step.Start? || step.Judge? || step.End? || step.Finish? ==> Moves(c, s, step, i, p)
  {
    match step
    case Send => i, p := s.sent, Received;
    case Start => i, p := s.run.job, Working;
    case Judge(j, o) => i, p := j, Judged(o);
    case End(j) => i, p := j, Ended(s.phase[j].o);
    case Finish(j) => i, p := j, Finished(s.phase[j].o);
    case _ => i, p := 0, Pending;
  }

  lemma StepCounters(c: Config, s: State, step: Step)
    requires Shape(c, s) && Pipeline(c, s) && Counters(c, s) && Enabled(c, s, step)
    ensures Shape(c, Do(c, s, step)) && Counters(c, Do(c, s, step))
  {
    var i, p := StepPhases(c, s, step);
    if Moves(c, s, step, i, p) { UpdateCounts(s.phase, i, p); }
  }

  lemma StepErrors(c: Config, s: State, step: Step)
    requires Shape(c, s) && Pipeline(c, s) && Errors(c, s) && Enabled(c, s, step)
    ensures Shape(c, Do(c, s, step)) && Errors(c, Do(c, s, step))
  {
    var i, p := StepPhases(c, s, step);
    if Moves(c, s, step, i, p) {
      assert Do(c, s, step).err == s.err[i := ErrorIn(p)];
    }
  }

  lemma StepResults(c: Config, s: State, step: Step)
    requires Shape(c, s) && Pipeline(c, s) && Results(c, s) && Enabled(c, s, step)
    ensures Shape(c, Do(c, s, step)) && Results(c, Do(c, s, step))
  {
  }

  lemma StepContexts(c: Config, s: State, step: Step)
    requires Shape(c, s) && Contexts(c, s) && Enabled(c, s, step)
    ensures Shape(c, Do(c, s, step)) && Contexts(c, Do(c, s, step))
  {
  }

  lemma StepScanned(c: Config, s: State, step: Step)
    requires Shape(c, s) && s.wg == OpenCount(s.phase) && Scanned(c, s) && Enabled(c, s, step)
    ensures Shape(c, Do(c, s, step)) && Scanned(c, Do(c, s, step))
  {
    match step
    case Scan => FirstErrorIs(s.err, s.push.k);
    case Judge(i, _) => OpenItem(s.phase, i);
    case End(i) => OpenItem(s.phase, i);
    case _ =>
  }

  /** An item that has not ended keeps the wait group up. */
  lemma OpenItem(ps: seq<Phase>, i: nat)
    requires i < |ps| && !ps[i].Ended? && !ps[i].Finished?
    ensures OpenCount(ps) > 0
  {
    CountZero(ps);
  }

  /** Every step of every goroutine keeps the invariant. */
  lemma StepInv(c: Config, s: State, step: Step)
    requires Inv(c, s) && Enabled(c, s, step)
    ensures Inv(c, Do(c, s, step))
  {
    StepPipeline(c, s, step);
    StepCounters(c, s, step);
    StepErrors(c, s, step);
    StepResults(c, s, step);
    StepContexts(c, s, step);
    StepScanned(c, s, step);
  }

  // ---- runs ----

  /** A run: the steps taken from the initial state, in order. */
  ghost predicate IsRun(c: Config, s: State, steps: seq<Step>)
    decreases |steps|
  {
    steps == [] || (Shape(c, s) && Enabled(c, s, steps[0]) && IsRun(c, Do(c, s, steps[0]), steps[1..]))
  }

  ghost function After(c: Config, s: State, steps: seq<Step>): State
    requires IsRun(c, s, steps)
    decreases |steps|
  {
    if steps == [] then s else After(c, Do(c, s, steps[0]), steps[1..])
  }

  lemma {:induction false} RunInv(c: Config, s: State, steps: seq<Step>)
    requires Inv(c, s) && IsRun(c, s, steps)
    ensures Inv(c, After(c, s, steps))
    decreases |steps|
  {
    if steps != [] {
      StepInv(c, s, steps[0]);
      RunInv(c, Do(c, s, steps[0]), steps[1..]);
    }
  }

  // ---- every step lowers a measure ----

  function PushWork(c: Config, p: PushPc): nat {
    match p
    case Sending => c.size + 4
    case Checking => c.size + 3
    case Waiting => c.size + 2
    case Scanning(k) => if k <= c.size then c.size - k + 1 else 1
    case Done => 0
    case Abandoned => 0
  }

  function Measure(c: Config, s: State): nat {
    TotalWork(s.phase) + Control(c, s)
  }

  lemma StepLowersMeasure(c: Config, s: State, step: Step)
    requires Inv(c, s) && Enabled(c, s, step)
    ensures Measure(c, Do(c, s, step)) < Measure(c, s)
  {
    var i, p := StepPhases(c, s, step);
    if Moves(c, s, step, i, p) {
      UpdateCounts(s.phase, i, p);
      assert Work(p) < Work(s.phase[i]);
    }
    ControlDoesNotGrow(c, s, step);
  }

  function Control(c: Config, s: State): nat {
    PushWork(c, s.push) + (if s.run.Stopped? then 0 else 1)
    + (if s.poolCancelled then 0 else 1) + (if s.batchCancelled then 0 else 1)
  }

  lemma ControlDoesNotGrow(c: Config, s: State, step: Step)
    requires Shape(c, s) && Contexts(c, s) && Scanned(c, s) && Enabled(c, s, step)
    ensures Control(c, Do(c, s, step)) <= Control(c, s)
    ensures !(step.Send? || step.Start? || step.Judge? || step.End? || step.Finish?) ==>
      Control(c, Do(c, s, step)) < Control(c, s)
  {
  }

  lemma {:induction false} RunIsShort(c: Config, s: State, steps: seq<Step>)
    requires Inv(c, s) && IsRun(c, s, steps)
    ensures |steps| + Measure(c, After(c, s, steps)) <= Measure(c, s)
    decreases |steps|
  {
    if steps != [] {
      StepInv(c, s, steps[0]);
      StepLowersMeasure(c, s, steps[0]);
      RunIsShort(c, Do(c, s, steps[0]), steps[1..]);
    }
  }

  // ---- no deadlock ----

  predicate IsCancel(step: Step) { step.CancelPool? || step.CancelBatch? }

  /** A step some worker can take when an errgroup slot is in use. */
  lemma WorkerCanStep(c: Config, s: State) returns (step: Step)
    requires Inv(c, s) && s.active > 0
    ensures Enabled(c, s, step) && !IsCancel(step)
  {
    CountZero(s.phase);
    var i :| 0 <= i < |s.phase| && (s.phase[i].Working? || s.phase[i].Judged? || s.phase[i].Ended?);
    step := if s.phase[i].Working? then Judge(i, BadFeed) else if s.phase[i].Judged? then End(i) else Finish(i);
  }

  /** As long as Push has not returned, Push, Run or a worker can move, whatever was cancelled. */
  lemma NeverStuck(c: Config, s: State) returns (step: Step)
    requires ValidConfig(c) && Inv(c, s) && !s.push.Done? && !s.push.Abandoned?
    ensures Enabled(c, s, step) && !IsCancel(step)
  {
    if s.run.Starting? {
      if s.active < c.limit { step := Start; } else { step := WorkerCanStep(c, s); }
    } else {
      match s.push
      case Sending =>
        // a stopped Run means a cancelled pool, which lets Push leave the loop
        step := if s.sent < c.size && s.run.Selecting? then Send else LeaveLoop;
      case Checking => step := Check;
      case Scanning(_) => step := Scan;
      case Waiting =>
        if s.wg == 0 {
          step := EndWait;
        } else {
          CountZero(s.phase);
          var i :| 0 <= i < |s.phase| && !(s.phase[i].Ended? || s.phase[i].Finished?);
          step := if s.phase[i].Working? then Judge(i, BadFeed) else End(i);
        }
    }
  }

  // ---- the promises, over whole runs ----

  /** Workers are started for items 0, 1, 2, ... in this order, each once, at most `limit` at a time. */
  lemma EachItemAtMostOnce(c: Config, poolErr: Option<Error>, steps: seq<Step>)
    requires ValidConfig(c) && IsRun(c, Init(c, poolErr), steps)
    ensures var s := After(c, Init(c, poolErr), steps);
      && |s.started| <= c.size && s.active <= c.limit
      && forall k :: 0 <= k < |s.started| ==> s.started[k] == k
  {
    InitInv(c, poolErr);
    RunInv(c, Init(c, poolErr), steps);
  }

  /** The wait group counts exactly the items that have not ended. */
  lemma WaitGroupIsExact(c: Config, poolErr: Option<Error>, steps: seq<Step>)
    requires ValidConfig(c) && IsRun(c, Init(c, poolErr), steps)
    ensures var s := After(c, Init(c, poolErr), steps);
      s.wg == |set i | 0 <= i < |s.phase| && !s.phase[i].Ended? && !s.phase[i].Finished?|
  {
    InitInv(c, poolErr);
    RunInv(c, Init(c, poolErr), steps);
    OpenIsCardinality(After(c, Init(c, poolErr), steps).phase);
  }

  lemma {:induction false} OpenIsCardinality(ps: seq<Phase>)
    ensures OpenCount(ps) == |set i | 0 <= i < |ps| && !ps[i].Ended? && !ps[i].Finished?|
  {
    if ps != [] {
      var last := |ps| - 1;
      var init := ps[..last];
      OpenIsCardinality(init);
      var all := set i | 0 <= i < |ps| && !ps[i].Ended? && !ps[i].Finished?;
      var before := set i | 0 <= i < |init| && !init[i].Ended? && !init[i].Finished?;
      assert all == before + if Open(ps[last]) == 0 then {} else {last};
    }
  }

  /**
   Push always returns: no run is longer than a bound fixed by the batch, and a run in which
   nobody can move any more except by cancelling is one in which Push has returned.
   */
  lemma PushReturns(c: Config, poolErr: Option<Error>, steps: seq<Step>)
    requires ValidConfig(c) && IsRun(c, Init(c, poolErr), steps)
    ensures |steps| <= 6 * c.size + 7
    ensures var s := After(c, Init(c, poolErr), steps);
      (forall step :: Enabled(c, s, step) ==> IsCancel(step)) ==> s.push.Done? || s.push.Abandoned?
  {
    var s0 := Init(c, poolErr);
    InitInv(c, poolErr);
    RunInv(c, s0, steps);
    RunIsShort(c, s0, steps);
    AllPending(s0.phase);
    var s := After(c, s0, steps);
    if !s.push.Done? && !s.push.Abandoned? {
      var step := NeverStuck(c, s);
    }
  }

  predicate Over(p: Phase) { p.Ended? || p.Finished? }

  ghost predicate IsFirstFailure(s: State, i: nat, e: Error) {
    && i < |s.phase| && Over(s.phase[i]) && s.phase[i].o == Failed(e)
    && forall j :: 0 <= j < i ==> Over(s.phase[j]) && !s.phase[j].o.Failed?
  }

  /**
   A Push that was not cancelled returns with every item refreshed by its own worker and
   `Pool.Err()` equal to the error of the lowest-index failed item, or nil; a bad feed is no error.
   */
  lemma PushReportsFirstError(c: Config, poolErr: Option<Error>, steps: seq<Step>)
    requires ValidConfig(c) && IsRun(c, Init(c, poolErr), steps)
    requires After(c, Init(c, poolErr), steps).push.Done?
    ensures var s := After(c, Init(c, poolErr), steps);
      && |s.started| == |s.phase| == c.size
      && (forall i :: 0 <= i < c.size ==> s.phase[i].Ended? || s.phase[i].Finished?)
      && (s.poolErr.None? <==> forall i :: 0 <= i < c.size ==> !s.phase[i].o.Failed?)
      && (s.poolErr.Some? ==> exists i :: 0 <= i < c.size && IsFirstFailure(s, i, s.poolErr.value))
  {
    InitInv(c, poolErr);
    RunInv(c, Init(c, poolErr), steps);
    DoneReports(c, After(c, Init(c, poolErr), steps));
  }

  lemma DoneReports(c: Config, s: State)
    requires Inv(c, s) && s.push.Done?
    ensures |s.started| == |s.phase| == c.size
    ensures forall i :: 0 <= i < c.size ==> s.phase[i].Ended? || s.phase[i].Finished?
    ensures s.poolErr.None? <==> forall i :: 0 <= i < c.size ==> !s.phase[i].o.Failed?
    ensures s.poolErr.Some? ==> exists i :: 0 <= i < c.size && IsFirstFailure(s, i, s.poolErr.value)
  {
    CountZero(s.phase);
    if s.poolErr.Some? {
      var i :| 0 <= i < |s.err| && s.err[i] == s.poolErr && forall j :: 0 <= j < i ==> s.err[j].None?;
      assert IsFirstFailure(s, i, s.poolErr.value);
    }
  }

  /** Push gives up only on a cancelled context, and then leaves `Pool.err` alone. */
  lemma {:induction false} AbandonedKeepsErr(c: Config, s: State, steps: seq<Step>)
    requires Inv(c, s) && IsRun(c, s, steps) && After(c, s, steps).push.Abandoned?
    ensures var t := After(c, s, steps); (t.poolCancelled || t.batchCancelled) && t.poolErr == s.poolErr
    decreases |steps|
  {
    if steps != [] {
      var next := Do(c, s, steps[0]);
      StepInv(c, s, steps[0]);
      if next.push.Done? { DoneStays(c, next, steps[1..]); }
      OnlyDoneSetsErr(c, s, steps[0]);
      AbandonedKeepsErr(c, next, steps[1..]);
    }
  }

  lemma OnlyDoneSetsErr(c: Config, s: State, step: Step)
    requires Shape(c, s) && Enabled(c, s, step)
    ensures Do(c, s, step).poolErr == s.poolErr || Do(c, s, step).push.Done?
  {
  }

  lemma {:induction false} DoneStays(c: Config, s: State, steps: seq<Step>)
    requires s.push.Done? && IsRun(c, s, steps)
    ensures After(c, s, steps).push.Done?
    decreases |steps|
  {
    if steps != [] { DoneStays(c, Do(c, s, steps[0]), steps[1..]); }
  }

  /** In every state of every run `item.refreshed` is set for exactly the items that finished refreshed. */
  lemma RefreshedIsLast(c: Config, poolErr: Option<Error>, steps: seq<Step>, i: nat)
    requires ValidConfig(c) && IsRun(c, Init(c, poolErr), steps) && i < c.size
    ensures var s := After(c, Init(c, poolErr), steps);
      i < |s.refreshed| && i < |s.phase| && (s.refreshed[i] <==> s.phase[i] == Finished(Refreshed))
  {
    InitInv(c, poolErr);
    RunInv(c, Init(c, poolErr), steps);
  }

  /**
   What Push may not rely on: `item.end()` runs before `item.refreshed` is written, so Push can
   return, having read the items, while a refreshed item still looks as if it had no result.
   */
  lemma RefreshedMayComeTooLate() returns (c: Config, steps: seq<Step>)
    ensures ValidConfig(c) && IsRun(c, Init(c, None), steps)
    ensures var s := After(c, Init(c, None), steps);
      s.push.Done? && s.phase == [Ended(Refreshed)] && s.refreshed == [false]
  {
    c := Config(1, 1);
    var s0 := Init(c, None);
    assert s0 == State(Sending, 0, Selecting, [Pending], [None], [false], 1, 0, false, false, None, []);
    var s3 := State(Sending, 1, Selecting, [Judged(Refreshed)], [None], [false], 1, 1, false, false, None, [0]);
    var s6 := State(Waiting, 1, Selecting, [Ended(Refreshed)], [None], [false], 0, 1, false, false, None, [0]);
    var early := ThreeSteps(c, s0, Send, Start, Judge(0, Refreshed), s3);
    var middle := ThreeSteps(c, s3, End(0), LeaveLoop, Check, s6);
    var late := ThreeSteps(c, s6, EndWait, Scan, Scan, s6.(push := Done));
    RunConcat(c, s3, middle, late);
    RunConcat(c, s0, early, middle + late);
    steps := early + (middle + late);
  }

  lemma ThreeSteps(c: Config, s: State, a: Step, b: Step, d: Step, t: State) returns (steps: seq<Step>)
    requires Shape(c, s) && Enabled(c, s, a)
    requires var s1 := Do(c, s, a); Shape(c, s1) && Enabled(c, s1, b)
    requires var s2 := Do(c, Do(c, s, a), b); Shape(c, s2) && Enabled(c, s2, d)
    requires t == Do(c, Do(c, Do(c, s, a), b), d)
    ensures IsRun(c, s, steps) && After(c, s, steps) == t
  {
    RunStep(c, Do(c, Do(c, s, a), b), [d]);
    RunStep(c, Do(c, s, a), [b, d]);
    RunStep(c, s, [a, b, d]);
    steps := [a, b, d];
  }

  lemma {:induction false} RunConcat(c: Config, s: State, x: seq<Step>, y: seq<Step>)
    requires IsRun(c, s, x) && IsRun(c, After(c, s, x), y)
    ensures IsRun(c, s, x + y) && After(c, s, x + y) == After(c, After(c, s, x), y)
    decreases |x|
  {
    if x == [] {
      assert x + y == y;
    } else {
      assert (x + y)[1..] == x[1..] + y;
      RunConcat(c, Do(c, s, x[0]), x[1..], y);
    }
  }

  lemma RunStep(c: Config, s: State, steps: seq<Step>)
    requires steps != [] && Shape(c, s) && Enabled(c, s, steps[0]) && IsRun(c, Do(c, s, steps[0]), steps[1..])
    ensures IsRun(c, s, steps) && After(c, s, steps) == After(c, Do(c, s, steps[0]), steps[1..])
  {
  }
}
