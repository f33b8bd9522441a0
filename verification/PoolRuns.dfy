/**
 What a run of the worker pool (internal/worker/pool.go) did, told by the steps taken: whether a
 context was cancelled before Push looked at it, and what `handler.RefreshFeed` gave each item.
 */
module PoolRuns {
  import opened Prelude
  import opened PoolProtocol

  // ---- runs and their beginnings ----

  /** A run is its first `k` steps and then the others. */
  lemma {:induction false} RunSplits(c: Config, s: State, steps: seq<Step>, k: nat)
    requires IsRun(c, s, steps) && k <= |steps|
    ensures IsRun(c, s, steps[..k]) && IsRun(c, After(c, s, steps[..k]), steps[k..])
    ensures After(c, s, steps) == After(c, After(c, s, steps[..k]), steps[k..])
    decreases |steps|
  {
    if k == 0 {
      assert steps[..k] == [] && steps[k..] == steps;
    } else {
      RunSplits(c, Do(c, s, steps[0]), steps[1..], k - 1);
      assert steps[..k][1..] == steps[1..][..k - 1] && steps[k..] == steps[1..][k - 1..];
    }
  }

  /** The last step of a run is taken in the state the others lead to. */
  lemma LastStep(c: Config, s: State, steps: seq<Step>)
    requires IsRun(c, s, steps) && steps != []
    ensures var k := |steps| - 1;
      && IsRun(c, s, steps[..k])
      && var t := After(c, s, steps[..k]);
      Shape(c, t) && Enabled(c, t, steps[k]) && After(c, s, steps) == Do(c, t, steps[k])
  {
    var k := |steps| - 1;
    RunSplits(c, s, steps, k);
    var t := After(c, s, steps[..k]);
    assert steps[k..] == [steps[k]];
    assert After(c, t, [steps[k]]) == After(c, Do(c, t, steps[k]), []);
  }

  // ---- Push on cancellation ----

  predicate Cancelled(s: State) { s.poolCancelled || s.batchCancelled }

  /** A context is cancelled exactly when a step cancelled it. */
  lemma {:induction false} CancelledByStep(c: Config, s: State, steps: seq<Step>)
    requires IsRun(c, s, steps)
    ensures Cancelled(After(c, s, steps)) <==> Cancelled(s) || exists j :: 0 <= j < |steps| && IsCancel(steps[j])
    decreases |steps|
  {
    if steps != [] {
      CancelledByStep(c, Do(c, s, steps[0]), steps[1..]);
      assert forall j :: 1 <= j < |steps| ==> steps[j] == steps[1..][j - 1];
      assert forall j :: 0 <= j < |steps[1..]| ==> steps[1..][j] == steps[j + 1];
    }
  }

  predicate Waits(push: PushPc) { push.Waiting? || push.Scanning? || push.Done? }

  /** What Push decides at the switch stays decided. */
  lemma {:induction false} DecisionStays(c: Config, s: State, steps: seq<Step>)
    requires IsRun(c, s, steps)
    ensures s.push.Abandoned? ==> After(c, s, steps).push.Abandoned?
    ensures Waits(s.push) ==> Waits(After(c, s, steps).push)
    decreases |steps|
  {
    if steps != [] { DecisionStays(c, Do(c, s, steps[0]), steps[1..]); }
  }

  /**
   A Push that reaches the switch behind its loop gives up exactly when a context was cancelled
   by then, even if every item was handed over, and then leaves `Pool.err` as it found it; a Push
   that does not give up there waits for its items, whatever is cancelled later.
   */
  lemma CheckAbandonsIff(c: Config, poolErr: Option<Error>, steps: seq<Step>, k: nat)
    requires ValidConfig(c) && IsRun(c, Init(c, poolErr), steps)
    requires k < |steps| && steps[k] == Check
    ensures var t := After(c, Init(c, poolErr), steps);
      && (t.push.Abandoned? <==> exists j :: 0 <= j < k && IsCancel(steps[j]))
      && (t.push.Abandoned? ==> t.poolErr == poolErr)
      && (!t.push.Abandoned? ==> Waits(t.push))
  {
    var s0 := Init(c, poolErr);
    RunSplits(c, s0, steps, k);
    RunSplits(c, s0, steps, k + 1);
    var before, after := steps[..k], steps[..k + 1];
    LastStep(c, s0, after);
    assert after[..k] == before;
    CancelledByStep(c, s0, before);
    assert forall j :: 0 <= j < k ==> before[j] == steps[j];
    DecisionStays(c, After(c, s0, after), steps[k + 1..]);
    InitInv(c, poolErr);
    if After(c, s0, steps).push.Abandoned? { AbandonedKeepsErr(c, s0, steps); }
  }

  /** A Push that has not decided yet can give up as soon as a context is cancelled, without anyone else moving. */
  lemma CancelledMayReturn(c: Config, s: State) returns (steps: seq<Step>)
    requires Inv(c, s) && Cancelled(s) && (s.push.Sending? || s.push.Checking?)
    ensures steps == [LeaveLoop, Check] || steps == [Check]
    ensures IsRun(c, s, steps) && After(c, s, steps).push.Abandoned?
  {
    if s.push.Sending? {
      var next := Do(c, s, LeaveLoop);
      RunStep(c, next, [Check]);
      RunStep(c, s, [LeaveLoop, Check]);
      steps := [LeaveLoop, Check];
    } else {
      RunStep(c, s, [Check]);
      steps := [Check];
    }
  }

  /** Push gives up nowhere else. */
  lemma {:induction false} GivesUpAtCheck(c: Config, s: State, steps: seq<Step>)
    requires IsRun(c, s, steps) && !s.push.Abandoned? && After(c, s, steps).push.Abandoned?
    ensures Check in steps
    decreases |steps|
  {
    if steps[0] != Check { GivesUpAtCheck(c, Do(c, s, steps[0]), steps[1..]); }
  }

  // ---- what was reported of each item ----

  predicate HasOutcome(p: Phase) { p.Judged? || p.Ended? || p.Finished? }

  /** An item has the outcome that `refreshFeed` returned for it, once it returned, and only then. */
  ghost predicate Reported(c: Config, s: State, steps: seq<Step>)
    requires Shape(c, s)
  {
    && (forall i: nat, o {:trigger Judge(i, o)} :: Judge(i, o) in steps ==>
      i < c.size && HasOutcome(s.phase[i]) && s.phase[i].o == o)
    && (forall i :: 0 <= i < c.size && HasOutcome(s.phase[i]) ==> Judge(i, s.phase[i].o) in steps)
  }

  lemma StepReports(c: Config, s: State, steps: seq<Step>, step: Step)
    requires Shape(c, s) && Pipeline(c, s) && Reported(c, s, steps) && Enabled(c, s, step)
    ensures Shape(c, Do(c, s, step)) && Reported(c, Do(c, s, step), steps + [step])
  {
    var i, p := StepPhases(c, s, step);
  }

  lemma {:induction false} RunReports(c: Config, poolErr: Option<Error>, steps: seq<Step>)
    requires ValidConfig(c) && IsRun(c, Init(c, poolErr), steps)
    ensures var s := After(c, Init(c, poolErr), steps); Shape(c, s) && Reported(c, s, steps)
    decreases |steps|
  {
    var s0 := Init(c, poolErr);
    InitInv(c, poolErr);
    if steps != [] {
      var k := |steps| - 1;
      LastStep(c, s0, steps);
      RunReports(c, poolErr, steps[..k]);
      RunInv(c, s0, steps[..k]);
      StepReports(c, After(c, s0, steps[..k]), steps[..k], steps[k]);
      assert steps == steps[..k] + [steps[k]];
    }
  }

  /** `refreshFeed` gave item `i` an error. */
  ghost predicate Fails(steps: seq<Step>, i: nat) { exists e :: Judge(i, Failed(e)) in steps }

  ghost predicate Answered(steps: seq<Step>, i: nat) { exists o :: Judge(i, o) in steps }

  ghost predicate IsFirstFailing(steps: seq<Step>, i: nat, e: Error) {
    Judge(i, Failed(e)) in steps && forall j :: 0 <= j < i ==> !Fails(steps, j)
  }

  lemma FailsIff(c: Config, s: State, steps: seq<Step>, i: nat)
    requires Shape(c, s) && Reported(c, s, steps)
    ensures Fails(steps, i) <==> i < c.size && HasOutcome(s.phase[i]) && s.phase[i].o.Failed?
  {
    if i < c.size && HasOutcome(s.phase[i]) && s.phase[i].o.Failed? {
      assert Judge(i, Failed(s.phase[i].o.error)) in steps;
    }
  }

  /**
   A Push that waited and returned has had one answer of `refreshFeed` for every item, and
   `Pool.Err()` is the answer of the first item that failed, or nil when none did.
   */
  lemma PushReportsAnswers(c: Config, poolErr: Option<Error>, steps: seq<Step>)
    requires ValidConfig(c) && IsRun(c, Init(c, poolErr), steps)
    requires After(c, Init(c, poolErr), steps).push.Done?
    ensures forall i :: 0 <= i < c.size ==> Answered(steps, i)
    ensures var err := After(c, Init(c, poolErr), steps).poolErr;
      && (err.None? <==> forall i: nat :: !Fails(steps, i))
      && (err.Some? ==> exists i: nat :: IsFirstFailing(steps, i, err.value))
  {
    var s := After(c, Init(c, poolErr), steps);
    PushReportsFirstError(c, poolErr, steps);
    RunReports(c, poolErr, steps);
    forall i | 0 <= i < c.size ensures Answered(steps, i) { assert Judge(i, s.phase[i].o) in steps; }
    forall i: nat ensures Fails(steps, i) <==> i < c.size && s.phase[i].o.Failed? { FailsIff(c, s, steps, i); }
    if s.poolErr.Some? {
      var i :| 0 <= i < c.size && IsFirstFailure(s, i, s.poolErr.value);
      assert IsFirstFailing(steps, i, s.poolErr.value);
      assert Fails(steps, i);
    }
  }

  /** `item.refreshed` is set exactly for items whose refresh succeeded and whose goroutine wrote it. */
  lemma {:induction false} RefreshedIsReported(c: Config, poolErr: Option<Error>, steps: seq<Step>, i: nat)
    requires ValidConfig(c) && IsRun(c, Init(c, poolErr), steps) && i < c.size
    ensures var s := After(c, Init(c, poolErr), steps);
      i < |s.refreshed| && (s.refreshed[i] <==> Judge(i, Refreshed) in steps && Finish(i) in steps)
  {
    RefreshedIsLast(c, poolErr, steps, i);
    RunReports(c, poolErr, steps);
    RunFinishes(c, poolErr, steps, i);
  }

  lemma {:induction false} RunFinishes(c: Config, poolErr: Option<Error>, steps: seq<Step>, i: nat)
    requires ValidConfig(c) && IsRun(c, Init(c, poolErr), steps) && i < c.size
    ensures var s := After(c, Init(c, poolErr), steps);
      i < |s.phase| && (s.phase[i].Finished? <==> Finish(i) in steps)
    decreases |steps|
  {
    var s0 := Init(c, poolErr);
    InitInv(c, poolErr);
    if steps != [] {
      var k := |steps| - 1;
      LastStep(c, s0, steps);
      RunFinishes(c, poolErr, steps[..k], i);
      RunInv(c, s0, steps[..k]);
      StepFinishes(c, After(c, s0, steps[..k]), steps[k], i);
      assert steps == steps[..k] + [steps[k]];
    }
  }

  lemma StepFinishes(c: Config, s: State, step: Step, i: nat)
    requires Shape(c, s) && Pipeline(c, s) && Enabled(c, s, step) && i < c.size
    ensures var t := Do(c, s, step);
      |t.phase| == c.size && (t.phase[i].Finished? <==> s.phase[i].Finished? || step == Finish(i))
  {
  }
}
