/**
 What the callers of the user cache (internal/worker/cache.go) are told, by the steps of the run:
 which calls fail, whose answer a waiting call gets, and whose user a call is given.
 */
module CacheRuns {
  import opened UserCache

  // ---- runs, step by step ----

  lemma {:induction false} RunSplits(s: State, steps: seq<Step>, k: nat)
    requires IsRun(s, steps) && k <= |steps|
    ensures IsRun(s, steps[..k]) && IsRun(After(s, steps[..k]), steps[k..])
    ensures After(s, steps) == After(After(s, steps[..k]), steps[k..])
    decreases |steps|
  {
    if k == 0 {
      assert steps[..k] == [] && steps[k..] == steps;
    } else {
      RunSplits(Do(s, steps[0]), steps[1..], k - 1);
      assert steps[..k][1..] == steps[1..][..k - 1] && steps[k..] == steps[1..][k - 1..];
    }
  }

  lemma LastStep(s: State, steps: seq<Step>)
    requires IsRun(s, steps) && steps != []
    ensures var k := |steps| - 1;
      && IsRun(s, steps[..k])
      && Enabled(After(s, steps[..k]), steps[k])
      && After(s, steps) == Do(After(s, steps[..k]), steps[k])
  {
    var k := |steps| - 1;
    RunSplits(s, steps, k);
    var t := After(s, steps[..k]);
    assert steps[k..] == [steps[k]];
    assert After(t, [steps[k]]) == After(Do(t, steps[k]), []);
  }

  /** A call that has its answer keeps it, and calls keep their ids. */
  lemma {:induction false} AnswersStay(s: State, steps: seq<Step>, k: nat)
    requires IsRun(s, steps) && k < |s.calls|
    ensures var t := After(s, steps);
      k < |t.calls| && t.calls[k].id == s.calls[k].id && (s.calls[k].pc.Done? ==> t.calls[k] == s.calls[k])
    decreases |steps|
  {
    if steps != [] { AnswersStay(Do(s, steps[0]), steps[1..], k); }
  }

  // ---- who waited for whom ----

  predicate Waits(s: State, k: nat, l: nat) { k < |s.calls| && s.calls[k].pc == Following(l) }

  predicate Ends(s: State, k: nat, answer: Answer) { k < |s.calls| && s.calls[k].pc == Done(answer) }

  /** Call `k` was woken at step `j` from waiting for call `l`. */
  ghost predicate WokenAt(steps: seq<Step>, j: nat, k: nat, l: nat) {
    j < |steps| && steps[j] == Wake(k) && IsRun(EMPTY, steps[..j]) && Waits(After(EMPTY, steps[..j]), k, l)
  }

  ghost predicate Woken(steps: seq<Step>, k: nat, l: nat) { exists j: nat :: WokenAt(steps, j, k, l) }

  /** A call that waited for another one ends with that call's answer. */
  lemma WokenAgrees(steps: seq<Step>, k: nat, l: nat)
    requires IsRun(EMPTY, steps) && Woken(steps, k, l)
    ensures var s := After(EMPTY, steps);
      && k < |s.calls| && l < |s.calls| && s.calls[k].id == s.calls[l].id
      && s.calls[l].pc.Done? && s.calls[k].pc == s.calls[l].pc
  {
    var j: nat :| WokenAt(steps, j, k, l);
    RunSplits(EMPTY, steps, j);
    RunSplits(EMPTY, steps, j + 1);
    var before, after := steps[..j], steps[..j + 1];
    LastStep(EMPTY, after);
    assert after[..j] == before;
    RunInv(EMPTY, before);
    AnswersStay(After(EMPTY, after), steps[j + 1..], k);
    AnswersStay(After(EMPTY, after), steps[j + 1..], l);
  }

  // ---- which calls fail ----

  /** What the answer of the store makes of a call that asked it. */
  ghost predicate Asked(s: State, steps: seq<Step>, k: nat)
    requires k < |s.calls|
  {
    var pc := s.calls[k].pc;
    && (Fetch(k, false) in steps ==> pc == Returning(Failed) || pc == Done(Failed))
    && (Fetch(k, true) in steps ==> pc.Remembering? || (Answers(pc) && pc.answer.Found?))
    && (pc == Returning(Failed) ==> Fetch(k, false) in steps)
    && (pc.Following? && Ends(s, pc.leader, Failed) ==> Fetch(pc.leader, false) in steps)
    && (pc == Done(Failed) ==> Fetch(k, false) in steps || exists l: nat :: FollowedFailed(steps, k, l))
  }

  ghost predicate FollowedFailed(steps: seq<Step>, k: nat, l: nat) { Woken(steps, k, l) && Fetch(l, false) in steps }

  ghost predicate AllAsked(s: State, steps: seq<Step>) {
    && (forall k :: 0 <= k < |s.calls| ==> Asked(s, steps, k))
    && (forall k: nat, ok {:trigger Fetch(k, ok)} :: Fetch(k, ok) in steps ==> k < |s.calls|)
  }

  lemma WokenLater(steps: seq<Step>, step: Step, k: nat, l: nat)
    requires Woken(steps, k, l)
    ensures Woken(steps + [step], k, l)
  {
    var j: nat :| WokenAt(steps, j, k, l);
    assert (steps + [step])[..j] == steps[..j];
    assert WokenAt(steps + [step], j, k, l);
  }

  lemma FailedLater(steps: seq<Step>, step: Step, k: nat)
    requires Fetch(k, false) in steps || exists l: nat :: FollowedFailed(steps, k, l)
    ensures Fetch(k, false) in steps + [step] || exists l: nat :: FollowedFailed(steps + [step], k, l)
  {
    if Fetch(k, false) !in steps {
      var l: nat :| FollowedFailed(steps, k, l);
      WokenLater(steps, step, k, l);
      assert FollowedFailed(steps + [step], k, l);
    }
  }

  /** The call that moves. */
  predicate Moves(step: Step, k: nat) { !step.Arrive? && step.k == k }

  lemma OthersAsked(s: State, steps: seq<Step>, step: Step, k: nat)
    requires OneLeader(s) && Followers(s) && Enabled(s, step) && k < |s.calls| && !Moves(step, k)
    requires AllAsked(s, steps)
    ensures k < |Do(s, step).calls| && Asked(Do(s, step), steps + [step], k)
  {
    assert Asked(s, steps, k);
    if s.calls[k].pc == Done(Failed) { FailedLater(steps, step, k); }
    if s.calls[k].pc.Following? { assert Asked(s, steps, s.calls[k].pc.leader); }
  }

  lemma WakeAsked(s: State, steps: seq<Step>, k: nat)
    requires IsRun(EMPTY, steps) && s == After(EMPTY, steps)
    requires Followers(s) && Enabled(s, Wake(k)) && AllAsked(s, steps)
    ensures Asked(Do(s, Wake(k)), steps + [Wake(k)], k)
  {
    var l, all := s.calls[k].pc.leader, steps + [Wake(k)];
    assert Asked(s, steps, k);
    assert all[..|steps|] == steps;
    assert WokenAt(all, |steps|, k, l);
    if Ends(s, l, Failed) { assert FollowedFailed(all, k, l); }
  }

  lemma MoverAsked(s: State, steps: seq<Step>, step: Step, k: nat)
    requires OneLeader(s) && Followers(s) && Enabled(s, step) && Moves(step, k) && !step.Wake?
    requires AllAsked(s, steps)
    ensures Asked(Do(s, step), steps + [step], k)
  {
    assert Asked(s, steps, k);
    if step.Enter? && s.calls[k].id in s.flights { assert Asked(s, steps, s.flights[s.calls[k].id]); }
  }

  lemma StepAsked(s: State, steps: seq<Step>, step: Step)
    requires IsRun(EMPTY, steps) && s == After(EMPTY, steps) && Inv(s)
    requires Enabled(s, step) && AllAsked(s, steps)
    ensures AllAsked(Do(s, step), steps + [step])
  {
    var t := Do(s, step);
    forall k | 0 <= k < |t.calls| ensures Asked(t, steps + [step], k) {
      if k == |s.calls| {
        assert t.calls[k].pc == Looking && Fetch(k, false) !in steps && Fetch(k, true) !in steps;
      } else if !Moves(step, k) {
        OthersAsked(s, steps, step, k);
      } else if step.Wake? {
        WakeAsked(s, steps, k);
      } else {
        MoverAsked(s, steps, step, k);
      }
    }
  }

  lemma {:induction false} RunAsked(steps: seq<Step>)
    requires IsRun(EMPTY, steps)
    ensures AllAsked(After(EMPTY, steps), steps)
    decreases |steps|
  {
    if steps != [] {
      var before := steps[..|steps| - 1];
      LastStep(EMPTY, steps);
      RunAsked(before);
      RunInv(EMPTY, before);
      StepAsked(After(EMPTY, before), before, steps[|steps| - 1]);
      assert steps == before + [steps[|steps| - 1]];
    }
  }

  /** A call fails exactly when the store failed it, or failed the call it waited for. */
  lemma FailsIff(steps: seq<Step>, k: nat)
    requires IsRun(EMPTY, steps) && k < |After(EMPTY, steps).calls| && After(EMPTY, steps).calls[k].pc.Done?
    ensures After(EMPTY, steps).calls[k].pc.answer.Failed? <==>
      Fetch(k, false) in steps || exists l: nat :: Woken(steps, k, l) && Fetch(l, false) in steps
  {
    var s := After(EMPTY, steps);
    RunAsked(steps);
    assert Asked(s, steps, k);
    if l: nat :| Woken(steps, k, l) && Fetch(l, false) in steps {
      WokenAgrees(steps, k, l);
      assert Asked(s, steps, l);
    }
    if s.calls[k].pc.answer.Failed? && Fetch(k, false) !in steps {
      var l: nat :| FollowedFailed(steps, k, l);
    }
  }

  /** While the store answers, every call is given a user. */
  lemma NoFailureWithoutStore(steps: seq<Step>, k: nat)
    requires IsRun(EMPTY, steps) && forall l: nat :: Fetch(l, false) !in steps
    requires k < |After(EMPTY, steps).calls| && After(EMPTY, steps).calls[k].pc.Done?
    ensures After(EMPTY, steps).calls[k].pc.answer.Found?
  {
    FailsIff(steps, k);
  }

  // ---- whose user, and from where ----

  /** The ids the callers came with, in order. */
  function Arrivals(steps: seq<Step>): seq<Id> {
    if steps == [] then []
    else Arrivals(steps[..|steps| - 1]) + if steps[|steps| - 1].Arrive? then [steps[|steps| - 1].id] else []
  }

  lemma {:induction false} CallsAreArrivals(steps: seq<Step>)
    requires IsRun(EMPTY, steps)
    ensures var s := After(EMPTY, steps);
      |s.calls| == |Arrivals(steps)| && forall k :: 0 <= k < |s.calls| ==> s.calls[k].id == Arrivals(steps)[k]
    decreases |steps|
  {
    if steps != [] {
      LastStep(EMPTY, steps);
      CallsAreArrivals(steps[..|steps| - 1]);
    }
  }

  /** The user a call is given is the one that was fetched for the id it came with. */
  lemma AnswerIsTheirUser(steps: seq<Step>, k: nat)
    requires IsRun(EMPTY, steps) && Successful(After(EMPTY, steps), k)
    ensures var s := After(EMPTY, steps);
      && s.calls[k].pc.answer.user < |s.fetched| && k < |Arrivals(steps)|
      && s.fetched[s.calls[k].pc.answer.user] == Arrivals(steps)[k]
  {
    RunInv(EMPTY, steps);
    CallsAreArrivals(steps);
  }

  /** A call that finds its user in the map is given it at once: it neither fetches nor waits. */
  lemma HitAnswersAtOnce(steps: seq<Step>, j: nat, k: nat)
    requires IsRun(EMPTY, steps) && j < |steps| && steps[j] == Look(k) && IsRun(EMPTY, steps[..j])
    requires var s := After(EMPTY, steps[..j]); k < |s.calls| && s.calls[k].id in s.users
    ensures var s := After(EMPTY, steps[..j]); Ends(After(EMPTY, steps), k, Found(s.users[s.calls[k].id]))
  {
    RunSplits(EMPTY, steps, j + 1);
    var after := steps[..j + 1];
    LastStep(EMPTY, after);
    assert after[..j] == steps[..j];
    AnswersStay(After(EMPTY, after), steps[j + 1..], k);
  }
}
