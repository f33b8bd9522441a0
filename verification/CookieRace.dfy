/**
 One `SecureCookie` shared by concurrent handlers (internal/http/securecookie/securecookie.go,
 internal/ui/ui.go). Nothing locks it, so the age check, the shift, the fill and the time stamp of
 different `nextKey` calls interleave, and so do sealing and the key by key scan of `Decrypt`.
 `nextKey` returns a slice of the array: a cookie is sealed with what `keys[0]` holds then.
 */
module CookieRace {
  import opened Prelude
  import opened S = SecureCookie

  /** Where one call of `Encrypt` stands; `at` is the clock at its age check. */
  datatype Caller =
    | Calling
    | Ready(at: Time)            // found the key fresh, or has stamped the time
    | Stale(at: Time)            // will rotate
    | Shifted(at: Time)          // has moved the keys up
    | Filled(at: Time)           // has written the new key
    | Failed                     // rand.Read failed; the call returns an error
    | Sealed(at: Time, key: Key)

  /** Where one call of `Decrypt` stands, for a message sealed with `key`; `i` is the next key to try. */
  datatype Reader = Waiting | Trying(key: Key, i: nat) | Opened(key: Key) | Missed(key: Key)

  datatype Race = Race(keys: seq<Key>, lastKeyUse: Option<Time>, clock: Time, callers: seq<Caller>,
    readers: seq<Reader>)

  datatype Step =
    | Tick(seconds: nat)
    | Check(c: nat)
    | Shift(c: nat)
    | Fill(c: nat, key: Key)
    | Fail(c: nat, key: Key)     // what rand.Read has written before it failed
    | Stamp(c: nat)
    | Seal(c: nat)
    | StartOpen(r: nat, key: Key)
    | TryKey(r: nat)

  predicate HasCaller(s: Race, c: nat) { c < |s.callers| }

  predicate Enabled(s: Race, step: Step) {
    |s.keys| == KEYS_NUM &&
    match step
    case Tick(_) => true
    case Check(c) => c < |s.callers| && s.callers[c].Calling?
    case Shift(c) => c < |s.callers| && s.callers[c].Stale?
    case Fill(c, _) => c < |s.callers| && s.callers[c].Shifted?
    case Fail(c, _) => c < |s.callers| && s.callers[c].Shifted?
    case Stamp(c) => c < |s.callers| && s.callers[c].Filled?
    case Seal(c) => c < |s.callers| && s.callers[c].Ready?
    case StartOpen(r, _) => r < |s.readers| && s.readers[r].Waiting?
    case TryKey(r) => r < |s.readers| && s.readers[r].Trying? && s.readers[r].i < KEYS_NUM
  }

  function Called(s: Race, c: nat, caller: Caller): Race
    requires c < |s.callers|
  {
    s.(callers := s.callers[c := caller])
  }

  /** `decrypt` opens the message or goes on to the next key. */
  function Tried(s: Race, key: Key, i: nat): Reader
    requires i < |s.keys|
  {
    if s.keys[i] == key then Opened(key) else if i + 1 < KEYS_NUM then Trying(key, i + 1) else Missed(key)
  }

  function Do(s: Race, step: Step): (t: Race)
    requires Enabled(s, step)
    ensures |t.keys| == KEYS_NUM && |t.callers| == |s.callers| && |t.readers| == |s.readers|
  {
    match step
    case Tick(seconds) => s.(clock := s.clock + seconds)
    case Check(c) =>
      Called(s, c, if IsFresh(State(s.keys, s.lastKeyUse), s.clock) then Ready(s.clock) else Stale(s.clock))
    case Shift(c) => Called(s.(keys := [s.keys[0]] + s.keys[..KEYS_NUM - 1]), c, Shifted(s.callers[c].at))
    case Fill(c, key) => Called(s.(keys := s.keys[0 := key]), c, Caller.Filled(s.callers[c].at))
    case Fail(c, key) => Called(s.(keys := s.keys[0 := key]), c, Caller.Failed)
    case Stamp(c) => Called(s.(lastKeyUse := Some(s.clock)), c, Ready(s.callers[c].at))
    case Seal(c) => Called(s, c, Caller.Sealed(s.callers[c].at, s.keys[0]))
    case StartOpen(r, key) => s.(readers := s.readers[r := Trying(key, 0)])
    case TryKey(r) => s.(readers := s.readers[r := Tried(s, s.readers[r].key, s.readers[r].i)])
  }

  predicate IsRun(s: Race, steps: seq<Step>)
    decreases |steps|, 0
  {
    |s.keys| == KEYS_NUM &&
    (steps == [] || (IsRun(s, steps[..|steps| - 1]) && Enabled(After(s, steps[..|steps| - 1]), steps[|steps| - 1])))
  }

  function After(s: Race, steps: seq<Step>): (t: Race)
    requires IsRun(s, steps)
    ensures |t.keys| == KEYS_NUM && |t.callers| == |s.callers| && |t.readers| == |s.readers|
    decreases |steps|, 1
  {
    if steps == [] then s else Do(After(s, steps[..|steps| - 1]), steps[|steps| - 1])
  }

  // ---- where a key is, over every interleaving ----

  predicate Writes(step: Step) { step.Fill? || step.Fail? }

  predicate Written(steps: seq<Step>) { exists i :: 0 <= i < |steps| && Writes(steps[i]) }

  /** The shifts up to the first write of `keys[0]`. */
  function ShiftsBefore(steps: seq<Step>): nat {
    if steps == [] then 0 else
    var init := steps[..|steps| - 1];
    ShiftsBefore(init) + if steps[|steps| - 1].Shift? && !Written(init) then 1 else 0
  }

  /** The shifts after it. */
  function ShiftsAfter(steps: seq<Step>): nat {
    if steps == [] then 0 else
    var init := steps[..|steps| - 1];
    ShiftsAfter(init) + if steps[|steps| - 1].Shift? && Written(init) then 1 else 0
  }

  ghost predicate NeverWrites(steps: seq<Step>, k: Key) {
    forall i :: 0 <= i < |steps| && Writes(steps[i]) ==> steps[i].key != k
  }

  /** The places of a key that was in `keys[0]` alone: `a` shifts before the next write, `b` after it. */
  predicate Holds(i: nat, written: bool, a: nat, b: nat) { if written then 1 + b <= i <= a + b else i <= a }

  lemma {:induction false} NoneAfter(steps: seq<Step>)
    requires !Written(steps)
    ensures ShiftsAfter(steps) == 0
  {
    if steps != [] {
      var init := steps[..|steps| - 1];
      assert forall i :: 0 <= i < |init| ==> init[i] == steps[i];
      NoneAfter(init);
    }
  }

  /**
   A key is lost to the very next write unless a shift came first, and then lives through fewer
   than KEYS_NUM - 1 shifts more; wherever else the calls interleave makes no difference.
   */
  lemma {:induction false} KeyPlaces(s: Race, steps: seq<Step>, k: Key)
    requires IsRun(s, steps) && NeverWrites(steps, k)
    requires s.keys[0] == k && k !in s.keys[1..]
    ensures forall i :: 0 <= i < KEYS_NUM ==>
      (After(s, steps).keys[i] == k <==> Holds(i, Written(steps), ShiftsBefore(steps), ShiftsAfter(steps)))
  {
    if steps == [] {
      assert forall i :: 1 <= i < KEYS_NUM ==> s.keys[i] in s.keys[1..];
    } else {
      var n := |steps| - 1;
      var init, step := steps[..n], steps[n];
      assert forall i :: 0 <= i < n ==> init[i] == steps[i];
      KeyPlaces(s, init, k);
      assert Written(steps) <==> Written(init) || Writes(step) by {
        if Written(init) { var i :| 0 <= i < n && Writes(init[i]); assert Writes(steps[i]); }
        if Writes(step) { assert Writes(steps[n]); }
      }
      if !Written(init) { NoneAfter(init); }
      var before, after := After(s, init), After(s, steps);
      assert before.keys[0] == k <==> Holds(0, Written(init), ShiftsBefore(init), ShiftsAfter(init));
      forall i | 0 <= i < KEYS_NUM
        ensures after.keys[i] == k <==> Holds(i, Written(steps), ShiftsBefore(steps), ShiftsAfter(steps))
      {
        if step.Shift? && i > 0 {
          assert after.keys[i] == before.keys[i - 1];
          assert before.keys[i - 1] == k <==> Holds(i - 1, Written(init), ShiftsBefore(init), ShiftsAfter(init));
        }
      }
    }
  }

  lemma KeySurvivesIff(s: Race, steps: seq<Step>, k: Key)
    requires IsRun(s, steps) && NeverWrites(steps, k)
    requires s.keys[0] == k && k !in s.keys[1..]
    ensures k in After(s, steps).keys <==>
      !Written(steps) || (ShiftsBefore(steps) >= 1 && ShiftsAfter(steps) < KEYS_NUM - 1)
  {
    KeyPlaces(s, steps, k);
    var t, b := After(s, steps), ShiftsAfter(steps);
    if !Written(steps) {
      assert t.keys[0] == k;
    } else if ShiftsBefore(steps) >= 1 && b < KEYS_NUM - 1 {
      assert t.keys[1 + b] == k;
    }
  }

  // ---- how long a cookie lives when rotations do not overlap ----

  /** Between the age check and the time stamp of a rotation. */
  predicate Rotating(c: Caller) { c.Stale? || c.Shifted? || c.Filled? }

  ghost predicate OneRotates(s: Race) {
    forall c, d :: 0 <= c < d < |s.callers| ==> !(Rotating(s.callers[c]) && Rotating(s.callers[d]))
  }

  /** In every state of the run at most one caller rotates, and no random read fails. */
  ghost predicate Orderly(s: Race, steps: seq<Step>)
    requires IsRun(s, steps)
    decreases |steps|
  {
    && OneRotates(After(s, steps))
    && (steps != [] ==> !steps[|steps| - 1].Fail? && Orderly(s, steps[..|steps| - 1]))
  }

  ghost predicate Start(s: Race) {
    && |s.keys| == KEYS_NUM
    && (s.lastKeyUse.Some? ==> s.lastKeyUse.value <= s.clock)
    && forall c :: 0 <= c < |s.callers| ==> s.callers[c].Calling?
  }

  /** What a call knows about the clock. */
  predicate CallerOK(s: Race, c: Caller)
    requires |s.keys| == KEYS_NUM
  {
    match c
    case Ready(at) => InTime(s, at)
    case Sealed(at, _) => InTime(s, at)
    case Stale(at) => at <= s.clock && IsOver(s)
    case Shifted(at) => at <= s.clock && IsOver(s) && s.keys[1] == s.keys[0]
    case Filled(at) => at <= s.clock
    case _ => true
  }

  /** The key in use at `at` had not lived its time by then. */
  predicate InTime(s: Race, at: Time) { s.lastKeyUse.Some? && at < s.lastKeyUse.value + KEY_LIFE_TIME }

  predicate IsOver(s: Race) { s.lastKeyUse.Some? ==> s.clock >= s.lastKeyUse.value + KEY_LIFE_TIME }

  ghost predicate Timed(s: Race) {
    && |s.keys| == KEYS_NUM && OneRotates(s)
    && (s.lastKeyUse.Some? ==> s.lastKeyUse.value <= s.clock)
    && forall c :: 0 <= c < |s.callers| ==> CallerOK(s, s.callers[c])
  }

  ghost predicate SomeShifted(s: Race) { exists c :: 0 <= c < |s.callers| && s.callers[c].Shifted? }

  ghost predicate SomeFilled(s: Race) { exists c :: 0 <= c < |s.callers| && s.callers[c].Filled? }

  /** The time the current rotation has reached: the clock while it is under way, else the last stamp. */
  ghost function Reached(s: Race): Time
    requires s.lastKeyUse.Some?
  {
    if SomeShifted(s) || SomeFilled(s) then s.clock else s.lastKeyUse.value
  }

  predicate Expired(s: Race, at: Time) { s.clock > at + (KEYS_NUM - 1) * KEY_LIFE_TIME }

  /** The key is at place `q`, which it cannot have got to too early. */
  ghost predicate HeldAt(s: Race, k: Key, at: Time, q: nat)
    requires s.lastKeyUse.Some?
  {
    && q < |s.keys| && s.keys[q] == k
    && Reached(s) > at + (q - 1) * KEY_LIFE_TIME
    && (SomeShifted(s) ==> q >= 1)
  }

  /** A key sealed with by a call that looked at `at` is at place `i` or further up, or its time is over. */
  ghost predicate Lives(s: Race, k: Key, at: Time, i: nat) {
    InTime(s, at) && (Expired(s, at) || exists q: nat :: i <= q && HeldAt(s, k, at, q))
  }

  ghost predicate AllLive(s: Race) {
    forall c :: 0 <= c < |s.callers| && s.callers[c].Sealed? ==> Lives(s, s.callers[c].key, s.callers[c].at, 0)
  }

  lemma StepTimed(s: Race, step: Step)
    requires Timed(s) && Enabled(s, step) && !step.Fail? && OneRotates(Do(s, step))
    ensures Timed(Do(s, step))
  {
    var t := Do(s, step);
    forall c | 0 <= c < |t.callers| ensures CallerOK(t, t.callers[c]) {
      assert CallerOK(s, s.callers[c]);
    }
  }

  /** No step moves a key out of reach before its time. */
  lemma StepLives(s: Race, step: Step, k: Key, at: Time, i: nat)
    requires Timed(s) && Enabled(s, step) && !step.Fail? && Lives(s, k, at, i)
    ensures Lives(Do(s, step), k, at, i)
  {
    var t := Do(s, step);
    if !Expired(t, at) {
      var q: nat :| i <= q && HeldAt(s, k, at, q);
      if step.Shift? {
        assert CallerOK(s, s.callers[step.c]);
        assert t.callers[step.c].Shifted?;
        assert !SomeShifted(s) && !SomeFilled(s);
        assert q + 1 < KEYS_NUM && t.keys[q + 1] == k;
        assert HeldAt(t, k, at, q + 1);
      } else {
        StepHolds(s, step, k, at, q);
      }
    }
  }

  lemma StepHolds(s: Race, step: Step, k: Key, at: Time, q: nat)
    requires Timed(s) && Enabled(s, step) && !step.Fail? && !step.Shift? && InTime(s, at) && HeldAt(s, k, at, q)
    ensures InTime(Do(s, step), at) && HeldAt(Do(s, step), k, at, q)
  {
    var t := Do(s, step);
    if step.Fill? || step.Stamp? {
      assert Rotating(s.callers[step.c]);
      assert forall c :: 0 <= c < |s.callers| && c != step.c ==>
        !Rotating(s.callers[c]) && t.callers[c] == s.callers[c];
      assert t.callers[step.c] ==
        if step.Fill? then Caller.Filled(s.callers[step.c].at) else Ready(s.callers[step.c].at);
    } else {
      assert forall c {:trigger t.callers[c]} {:trigger s.callers[c]} :: 0 <= c < |s.callers| ==>
        (t.callers[c].Shifted? <==> s.callers[c].Shifted?) && (t.callers[c].Filled? <==> s.callers[c].Filled?);
      if SomeShifted(t) { var c :| 0 <= c < |t.callers| && t.callers[c].Shifted?; assert s.callers[c].Shifted?; }
      if SomeShifted(s) { var c :| 0 <= c < |s.callers| && s.callers[c].Shifted?; assert t.callers[c].Shifted?; }
      if SomeFilled(t) { var c :| 0 <= c < |t.callers| && t.callers[c].Filled?; assert s.callers[c].Filled?; }
      if SomeFilled(s) { var c :| 0 <= c < |s.callers| && s.callers[c].Filled?; assert t.callers[c].Filled?; }
    }
  }

  /** A cookie just sealed. */
  lemma SealLives(s: Race, c: nat)
    requires Timed(s) && Enabled(s, Seal(c))
    ensures Lives(s, s.keys[0], s.callers[c].at, 0)
  {
    assert CallerOK(s, s.callers[c]);
    if SomeShifted(s) {
      var d :| 0 <= d < |s.callers| && s.callers[d].Shifted?;
      assert CallerOK(s, s.callers[d]);
      assert HeldAt(s, s.keys[0], s.callers[c].at, 1);
    } else {
      assert HeldAt(s, s.keys[0], s.callers[c].at, 0);
    }
  }

  lemma StepAllLive(s: Race, step: Step)
    requires Timed(s) && AllLive(s) && Enabled(s, step) && !step.Fail?
    ensures AllLive(Do(s, step))
  {
    var t := Do(s, step);
    forall c | 0 <= c < |t.callers| && t.callers[c].Sealed? ensures Lives(t, t.callers[c].key, t.callers[c].at, 0) {
      if step.Seal? && step.c == c {
        SealLives(s, c);
        StepLives(s, step, s.keys[0], s.callers[c].at, 0);
      } else {
        assert t.callers[c] == s.callers[c];
        StepLives(s, step, s.callers[c].key, s.callers[c].at, 0);
      }
    }
  }

  /** In an orderly run every sealed key lives. */
  lemma {:induction false} RunLives(s: Race, steps: seq<Step>)
    requires Start(s) && IsRun(s, steps) && Orderly(s, steps)
    ensures Timed(After(s, steps)) && AllLive(After(s, steps))
    decreases |steps|
  {
    if steps != [] {
      var init, step := steps[..|steps| - 1], steps[|steps| - 1];
      RunLives(s, init);
      StepTimed(After(s, init), step);
      StepAllLive(After(s, init), step);
    }
  }

  /** A sealed cookie has its key until KEYS_NUM - 1 key lives after its call looked at the clock. */
  lemma CookieLives(s: Race, steps: seq<Step>, c: nat)
    requires Start(s) && IsRun(s, steps) && Orderly(s, steps)
    requires HasCaller(s, c) && After(s, steps).callers[c].Sealed?
    ensures var t := After(s, steps);
      t.clock <= t.callers[c].at + (KEYS_NUM - 1) * KEY_LIFE_TIME ==> t.callers[c].key in t.keys
  {
    RunLives(s, steps);
    var t := After(s, steps);
    assert Lives(t, t.callers[c].key, t.callers[c].at, 0);
    if !Expired(t, t.callers[c].at) {
      var q: nat :| HeldAt(t, t.callers[c].key, t.callers[c].at, q);
      assert t.keys[q] == t.callers[c].key;
    }
  }

  // ---- and opens ----

  /** Reader `r` has not passed the key by, if the key is the one it looks for. */
  ghost predicate ReaderLives(s: Race, r: nat, k: Key, at: Time) {
    r < |s.readers| && Lives(s, k, at, 0) &&
    match s.readers[r]
    case Trying(key, i) => key == k ==> Lives(s, k, at, i)
    case Missed(key) => key == k ==> Expired(s, at)
    case _ => true
  }

  lemma StepReader(s: Race, step: Step, r: nat, k: Key, at: Time)
    requires Timed(s) && Enabled(s, step) && !step.Fail? && ReaderLives(s, r, k, at)
    ensures ReaderLives(Do(s, step), r, k, at)
  {
    StepLives(s, step, k, at, 0);
    if s.readers[r].Trying? && s.readers[r].key == k {
      StepLives(s, step, k, at, s.readers[r].i);
      if step == TryKey(r) { TryLives(s, r, k, at); }
    }
  }

  lemma TryLives(s: Race, r: nat, k: Key, at: Time)
    requires Timed(s) && Enabled(s, TryKey(r)) && s.readers[r].key == k && Lives(s, k, at, s.readers[r].i)
    ensures var t := Do(s, TryKey(r)); match t.readers[r]
      case Trying(_, i) => Lives(t, k, at, i)
      case Missed(_) => Expired(t, at)
      case _ => true
  {
    var t, i := Do(s, TryKey(r)), s.readers[r].i;
    if s.keys[i] != k && !Expired(s, at) {
      var q: nat :| i <= q && HeldAt(s, k, at, q);
      assert i + 1 <= q;
      StepHolds(s, TryKey(r), k, at, q);
    }
  }

  lemma {:induction false} RunReader(s: Race, steps: seq<Step>, r: nat, k: Key, at: Time)
    requires Timed(s) && IsRun(s, steps) && Orderly(s, steps) && ReaderLives(s, r, k, at)
    ensures Timed(After(s, steps)) && ReaderLives(After(s, steps), r, k, at)
    decreases |steps|
  {
    if steps != [] {
      var init, step := steps[..|steps| - 1], steps[|steps| - 1];
      RunReader(s, init, r, k, at);
      StepTimed(After(s, init), step);
      StepReader(After(s, init), step, r, k, at);
    }
  }

  /**
   While at most one call rotates at a time and no random read fails: whoever starts to open a
   cookie after it was sealed, and ends without having opened it, ends later than KEYS_NUM - 1 key
   lives after the sealing call looked at the clock. Rotations may pass during the scan.
   */
  lemma CookieOpens(s: Race, before: seq<Step>, after: seq<Step>, c: nat, r: nat)
    requires Start(s) && IsRun(s, before) && Orderly(s, before) && HasCaller(s, c) && r < |s.readers|
    requires After(s, before).callers[c].Sealed? && After(s, before).readers[r].Waiting?
    requires IsRun(After(s, before), after) && Orderly(After(s, before), after)
    ensures var cookie, t := After(s, before).callers[c], After(After(s, before), after);
      t.readers[r] == Missed(cookie.key) ==> t.clock > cookie.at + (KEYS_NUM - 1) * KEY_LIFE_TIME
  {
    RunLives(s, before);
    var m := After(s, before);
    assert Lives(m, m.callers[c].key, m.callers[c].at, 0);
    RunReader(m, after, r, m.callers[c].key, m.callers[c].at);
  }

  // ---- two rotations at once lose a cookie ----

  lemma Append(s: Race, steps: seq<Step>, step: Step)
    requires IsRun(s, steps) && Enabled(After(s, steps), step)
    ensures IsRun(s, steps + [step]) && After(s, steps + [step]) == Do(After(s, steps), step)
  {
    assert (steps + [step])[..|steps|] == steps;
  }

  function Rotated(t: Race, c: nat, key: Key): Race
    requires |t.keys| == KEYS_NUM && c < |t.callers| && t.callers[c].Stale?
  {
    Called(t.(keys := [key] + t.keys[..KEYS_NUM - 1], lastKeyUse := Some(t.clock)), c, Ready(t.callers[c].at))
  }

  /** Nothing in between, it is the call of `SecureCookie.NextKey`. */
  lemma RotatedIsCall(t: Race, c: nat, now: Time, key: Key)
    requires |t.keys| == KEYS_NUM && c < |t.callers| && t.callers[c].Stale?
    requires !IsFresh(State(t.keys, t.lastKeyUse), now)
    ensures var u := Rotated(t, c, key);
      State(u.keys, u.lastKeyUse) == S.After(State(t.keys, t.lastKeyUse), Call(now, t.clock, Random.Filled(key)))
  {
  }

  /** One whole rotation, of a call that has found the key too old. */
  lemma Rotate(s: Race, steps: seq<Step>, c: nat, key: Key) returns (longer: seq<Step>)
    requires IsRun(s, steps) && HasCaller(s, c) && After(s, steps).callers[c].Stale?
    ensures IsRun(s, longer)
    ensures After(s, longer) == Rotated(After(s, steps), c, key)
  {
    Append(s, steps, Shift(c));
    Append(s, steps + [Shift(c)], Fill(c, key));
    Append(s, steps + [Shift(c)] + [Fill(c, key)], Stamp(c));
    longer := steps + [Shift(c)] + [Fill(c, key)] + [Stamp(c)];
  }

  /**
   Two calls that both find the key too old both rotate: a cookie sealed one second before is lost,
   at the very end of its key's hour.
   */
  lemma TwoRotationsLoseCookie(s: Race, a: nat, b: nat, c: nat, x: Key, y: Key)
      returns (before: seq<Step>, after: seq<Step>)
    requires Start(s) && HasCaller(s, a) && HasCaller(s, b) && HasCaller(s, c) && a != b && a != c && b != c
    requires s.lastKeyUse == Some(s.clock - KEY_LIFE_TIME + 1) && x != s.keys[0] && y != s.keys[0]
    ensures IsRun(s, before) && After(s, before).callers[c] == Caller.Sealed(s.clock, s.keys[0])
    ensures IsRun(After(s, before), after) && After(After(s, before), after).clock == s.clock + 1
    ensures s.keys[0] !in After(After(s, before), after).keys
  {
    before := SealFresh(s, c);
    var m := After(s, before);
    after := BothStale(m, a, b);
    after := Rotate(m, after, a, x);
    after := Rotate(m, after, b, y);
  }

  lemma SealFresh(s: Race, c: nat) returns (steps: seq<Step>)
    requires |s.keys| == KEYS_NUM && HasCaller(s, c) && s.callers[c].Calling?
    requires s.lastKeyUse == Some(s.clock - KEY_LIFE_TIME + 1)
    ensures IsRun(s, steps) && After(s, steps) == Called(s, c, Caller.Sealed(s.clock, s.keys[0]))
  {
    Append(s, [], Check(c));
    Append(s, [Check(c)], Seal(c));
    steps := [Check(c)] + [Seal(c)];
  }

  lemma BothStale(m: Race, a: nat, b: nat) returns (steps: seq<Step>)
    requires |m.keys| == KEYS_NUM && HasCaller(m, a) && HasCaller(m, b) && a != b && m.callers[a].Calling?
      && m.callers[b].Calling?
    requires m.lastKeyUse == Some(m.clock - KEY_LIFE_TIME + 1)
    ensures IsRun(m, steps)
    ensures After(m, steps) == Called(Called(m.(clock := m.clock + 1), a, Stale(m.clock + 1)), b, Stale(m.clock + 1))
  {
    Append(m, [], Tick(1));
    Append(m, [Tick(1)], Check(a));
    Append(m, [Tick(1)] + [Check(a)], Check(b));
    steps := [Tick(1)] + [Check(a)] + [Check(b)];
  }
}
