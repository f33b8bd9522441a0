/**
 Cookie keys that rotate over time (internal/http/securecookie/securecookie.go). Keys are only
 compared; a sealed message opens with the key it was sealed with and no other.
 */
module SecureCookie {
  import opened Prelude

  type Key = int
  type Time = int
  type Bytes = seq<bv8>

  const KEYS_NUM: nat := 2
  const KEY_LIFE_TIME: Time := 3600

  const NONCE_SIZE: nat := 12
  const OVERHEAD: nat := 16

  /** AES-GCM, symbolically; `Other` is any message nobody sealed. */
  datatype Message = Sealed(key: Key, plaintext: Bytes) | Other(length: nat)

  function Length(m: Message): nat { if m.Sealed? then NONCE_SIZE + |m.plaintext| + OVERHEAD else m.length }

  datatype Error = ErrMsgTooShort | ErrDecrypt | ErrRandomKey | ErrRandomNonce

  /** What rand.Read did to the key buffer. */
  datatype Random = Filled(key: Key) | Failed(key: Key)

  // ---- the rotation, on values ----

  /** `lastKeyUse` is None for the zero time. */
  datatype State = State(keys: seq<Key>, lastKeyUse: Option<Time>)

  predicate IsState(s: State) { |s.keys| == KEYS_NUM }

  /** One call that needs a key: the clock when it looks, the clock when it stores, and the new key. */
  datatype Call = Call(now: Time, later: Time, random: Random)

  predicate IsFresh(s: State, now: Time) { s.lastKeyUse.Some? && now - s.lastKeyUse.value < KEY_LIFE_TIME }

  function After(s: State, c: Call): State
    requires IsState(s)
  {
    if IsFresh(s, c.now) then s else
    State([c.random.key] + s.keys[..KEYS_NUM - 1], if c.random.Filled? then Some(c.later) else s.lastKeyUse)
  }

  function Run(s: State, calls: seq<Call>): (t: State)
    requires IsState(s)
    ensures IsState(t)
  {
    if calls == [] then s else After(Run(s, calls[..|calls| - 1]), calls[|calls| - 1])
  }

  function Shifts(s: State, calls: seq<Call>): nat
    requires IsState(s)
  {
    if calls == [] then 0 else
    var n := |calls| - 1;
    Shifts(s, calls[..n]) + if IsFresh(Run(s, calls[..n]), calls[n].now) then 0 else 1
  }

  ghost predicate Monotone(calls: seq<Call>) {
    && (forall i :: 0 <= i < |calls| ==> calls[i].now <= calls[i].later)
    && (forall i, j :: 0 <= i < j < |calls| ==> calls[i].later <= calls[j].now)
  }

  ghost predicate AllFilled(calls: seq<Call>) { forall i :: 0 <= i < |calls| ==> calls[i].random.Filled? }

  ghost predicate NoneIs(calls: seq<Call>, k: Key) { forall i :: 0 <= i < |calls| ==> calls[i].random.key != k }

  /** A key leaves exactly with the KEYS_NUM-th shift, and until then sits at the number of shifts. */
  lemma {:induction false} KeyAges(s: State, calls: seq<Call>, k: Key)
    requires IsState(s) && s.keys[0] == k && k !in s.keys[1..] && NoneIs(calls, k)
    ensures k in Run(s, calls).keys <==> Shifts(s, calls) < KEYS_NUM
    ensures forall i :: 0 <= i < KEYS_NUM ==> (Run(s, calls).keys[i] == k <==> i == Shifts(s, calls))
  {
    if calls != [] {
      var n := |calls| - 1;
      KeyAges(s, calls[..n], k);
      assert calls[n].random.key != k;
    } else {
      assert forall i :: 1 <= i < KEYS_NUM ==> s.keys[i] in s.keys[1..];
    }
  }

  /** Successful rotations are at least a key's life apart. */
  lemma {:induction false} ShiftsTakeTime(s: State, calls: seq<Call>)
    requires IsState(s) && s.lastKeyUse.Some? && Monotone(calls) && AllFilled(calls)
    ensures Run(s, calls).lastKeyUse.Some?
    ensures Run(s, calls).lastKeyUse.value >= s.lastKeyUse.value + Shifts(s, calls) * KEY_LIFE_TIME
    ensures Run(s, calls).lastKeyUse.value <= s.lastKeyUse.value
         || exists i :: 0 <= i < |calls| && Run(s, calls).lastKeyUse.value == calls[i].later
  {
    if calls != [] {
      var n := |calls| - 1;
      ShiftsTakeTime(s, calls[..n]);
      assert forall i :: 0 <= i < n ==> calls[..n][i] == calls[i];
    }
  }

  /** What `Decrypt` gives back. */
  function Opening(s: State, m: Message): Option<Bytes> {
    if m.Sealed? && m.key in s.keys then Some(m.plaintext) else None
  }

  /**
   A cookie that `Encrypt` made at time `t` gives its plaintext back at every time up to
   one hour later, which is (KEYS_NUM - 1) * KEY_LIFE_TIME,
     whatever is encrypted in between by calls that do not overlap.
   */
  lemma CookieLives(s: State, first: Call, calls: seq<Call>, time: Time, plaintext: Bytes)
    requires IsState(s) && first.random.Filled? && first.now <= first.later
    requires Monotone(calls) && AllFilled(calls)
    requires var k := After(s, first).keys[0]; k !in After(s, first).keys[1..] && NoneIs(calls, k)
    requires first.later <= time && forall i :: 0 <= i < |calls| ==>
      first.later <= calls[i].now && calls[i].later <= time
    requires time <= first.now + 3600
    ensures var u := After(s, first); Opening(Run(u, calls), Sealed(u.keys[0], plaintext)) == Some(plaintext)
  {
    var u := After(s, first);
    KeyAges(u, calls, u.keys[0]);
    ShiftsTakeTime(u, calls);
    assert u.lastKeyUse.value > first.now - KEY_LIFE_TIME;
    assert Run(u, calls).lastKeyUse.value <= time || Run(u, calls).lastKeyUse.value <= u.lastKeyUse.value;
  }

  /** One second later the cookie can be gone: the bound cannot be raised. */
  lemma BoundIsTight() returns (s: State, first: Call, calls: seq<Call>)
    ensures IsState(s) && first.random.Filled? && first.now == first.later && Monotone(calls) && AllFilled(calls)
    ensures NoneIs(calls, After(s, first).keys[0]) && After(s, first).keys[0] !in After(s, first).keys[1..]
    ensures forall i :: 0 <= i < |calls| ==>
      first.later <= calls[i].now && calls[i].later <= first.now + 3601
    ensures After(s, first).keys[0] !in Run(After(s, first), calls).keys
  {
    s := State([5, 0], Some(1));
    first := Call(KEY_LIFE_TIME, KEY_LIFE_TIME, Filled(6));
    var t := 1 + KEY_LIFE_TIME;
    calls := [Call(t, t, Filled(7)), Call(t + KEY_LIFE_TIME, t + KEY_LIFE_TIME, Filled(8))];
    assert After(s, first) == s;
    assert calls[..1][..0] == [] && calls[..1] == [calls[0]];
    assert Run(s, calls[..0]) == s;
    assert Run(s, calls[..1]) == State([7, 5], Some(t));
    assert Run(s, calls) == State([8, 7], Some(t + KEY_LIFE_TIME));
  }

  /** A failing rand.Read shifts the keys all the same and leaves the time: two of them lose a cookie at once. */
  lemma FailuresLoseCookies() returns (s: State, first: Call, calls: seq<Call>)
    ensures IsState(s) && first.random.Filled? && Monotone(calls) && |calls| == KEYS_NUM
    ensures forall i :: 0 <= i < |calls| ==>
      calls[i].now == first.later + KEY_LIFE_TIME && NoneIs(calls, After(s, first).keys[0])
    ensures After(s, first).keys[0] !in Run(After(s, first), calls).keys
  {
    s := State([0, 0], None);
    first := Call(10, 10, Filled(1));
    var t := 10 + KEY_LIFE_TIME;
    calls := [Call(t, t, Failed(2)), Call(t, t, Failed(3))];
    var u := After(s, first);
    assert u.keys == [1, 0];
    assert calls[..1][..0] == [] && calls[..1] == [calls[0]] && calls == calls[..1] + [calls[1]];
    assert Run(u, calls[..0]) == u;
    assert Run(u, calls[..1]) == After(u, calls[0]) == State([2, 1], Some(10));
    assert Run(u, calls) == State([3, 2], Some(10));
  }

  // ---- the object ----

  class SecureCookie {
    const keys: array<Key>
    var lastKeyUse: Option<Time>

    ghost predicate Valid()
      reads this
    {
      keys.Length == KEYS_NUM
    }

    ghost function Value(): (s: State)
      requires Valid()
      reads this, keys
      ensures IsState(s)
    {
      State(keys[..], lastKeyUse)
    }

    constructor ()
      ensures Valid() && fresh(keys) && Value() == State([0, 0], None)
    {
      keys := new Key[KEYS_NUM](_ => 0);
      lastKeyUse := None;
    }

    method NextKey(c: Call) returns (r: Result<Key, Error>)
      requires Valid()
      modifies this`lastKeyUse, keys
      ensures Value() == After(old(Value()), c)
      ensures r == if IsFresh(old(Value()), c.now) || c.random.Filled? then Ok(Value().keys[0]) else Err(ErrRandomKey)
    {
      if lastKeyUse.Some? && c.now - lastKeyUse.value < KEY_LIFE_TIME {
        return Ok(keys[0]);
      }
      var i := keys.Length - 1;
      while i > 0
        invariant 0 <= i < keys.Length && lastKeyUse == old(lastKeyUse)
        invariant forall j :: 0 <= j <= i ==> keys[j] == old(keys[j])
        invariant forall j :: i < j < keys.Length ==> keys[j] == old(keys[j - 1])
      {
        keys[i] := keys[i - 1];
        i := i - 1;
      }
      keys[0] := c.random.key;
      assert keys[..] == After(old(Value()), c).keys;
      if c.random.Failed? {
        return Err(ErrRandomKey);
      }
      lastKeyUse := Some(c.later);
      r := Ok(keys[0]);
    }

    method Encrypt(plaintext: Bytes, c: Call, nonceOK: bool) returns (r: Result<Message, Error>)
      requires Valid()
      modifies this`lastKeyUse, keys
      ensures Value() == After(old(Value()), c)
      ensures r.Ok? <==> nonceOK && (IsFresh(old(Value()), c.now) || c.random.Filled?)
      ensures r.Ok? ==> r.value == Sealed(Value().keys[0], plaintext)
    {
      var key := NextKey(c);
      if key.Err? {
        return Err(key.error);
      }
      if !nonceOK {
        return Err(ErrRandomNonce);
      }
      r := Ok(Sealed(key.value, plaintext));
    }

    /**
     A sealed message opens exactly when its key is still there. When no key opens a message of
     sufficient length the result is neither a plaintext nor an error.
     */
    method Decrypt(message: Message) returns (plaintext: Option<Bytes>, err: Option<Error>)
      requires Valid()
      ensures plaintext == Opening(Value(), message)
      ensures err == if Length(message) < NONCE_SIZE + OVERHEAD then Some(ErrMsgTooShort) else None
    {
      var resultErr: Option<Error> := None;
      for i := 0 to keys.Length
        invariant resultErr == None
        invariant i > 0 ==> Length(message) >= NONCE_SIZE + OVERHEAD
        invariant message.Sealed? ==> forall j :: 0 <= j < i ==> keys[j] != message.key
      {
        var r := Open(keys[i], message);
        if r.Ok? || r.error != ErrDecrypt {
          return if r.Ok? then Some(r.value) else None, if r.Ok? then None else Some(r.error);
        } else if resultErr != None {
          resultErr := Some(ErrDecrypt);
        }
      }
      return None, resultErr;
    }
  }

  /** `decrypt` with one key. */
  function Open(key: Key, m: Message): Result<Bytes, Error> {
    if Length(m) < NONCE_SIZE + OVERHEAD then Err(ErrMsgTooShort)
    else if m.Sealed? && m.key == key then Ok(m.plaintext)
    else Err(ErrDecrypt)
  }
}
