/** The token bucket: a bound on the calls let through in any window of time, for every key. */
module RateLimit {

  datatype Bucket = Bucket(tokens: real, last: real)

  datatype Settings = Settings(capacity: nat, refill: real)

  function Min(a: real, b: real): real { if a <= b then a else b }

  function Refilled(c: Settings, b: Bucket, now: real): real {
    Min(c.capacity as real, b.tokens + (now - b.last) * c.refill)
  }

  predicate Permits(c: Settings, b: Bucket, now: real) { Refilled(c, b, now) >= 1.0 }

  function After(c: Settings, b: Bucket, now: real): Bucket {
    Bucket(if Permits(c, b, now) then Refilled(c, b, now) - 1.0 else Refilled(c, b, now), now)
  }

  /** A key that was never seen starts with a full bucket. */
  function BucketOf(c: Settings, state: map<string, Bucket>, key: string, now: real): Bucket {
    if key in state then state[key] else Bucket(c.capacity as real, now)
  }

  datatype Call = Call(key: string, at: real)

  function Next(c: Settings, state: map<string, Bucket>, call: Call): map<string, Bucket> {
    state[call.key := After(c, BucketOf(c, state, call.key, call.at), call.at)]
  }

  function Run(c: Settings, calls: seq<Call>): map<string, Bucket> {
    if calls == [] then map[] else Next(c, Run(c, calls[..|calls| - 1]), calls[|calls| - 1])
  }

  class TokenBucketLimiter {
    const settings: Settings
    var state: map<string, Bucket>

    constructor (settings: Settings)
      ensures this.settings == settings && state == map[]
    {
      this.settings := settings;
      state := map[];
    }

    /** A call is let through exactly if the key is new and there is room for one call at all, or if
        what is left of its bucket and the refill since its last call make up a whole one. */
    method Allow(key: string, now: real) returns (allowed: bool)
      modifies this`state
      ensures allowed <==>
                && settings.capacity >= 1
                && (key in old(state) ==> old(state)[key].tokens + (now - old(state)[key].last) * settings.refill >= 1.0)
      ensures state == Next(settings, old(state), Call(key, now))
      ensures allowed <==> Permits(settings, BucketOf(settings, old(state), key, now), now)
    {
      var b := if key in state then state[key] else Bucket(settings.capacity as real, now);
      var tokens := Min(settings.capacity as real, b.tokens + (now - b.last) * settings.refill);
      assert b == BucketOf(settings, state, key, now) && tokens == Refilled(settings, b, now);
      hide Refilled;
      if tokens < 1.0 {
        state := state[key := Bucket(tokens, now)];
        return false;
      }
      state := state[key := Bucket(tokens - 1.0, now)];
      return true;
    }
  }

  /** Whether call `k` of a history was let through. */
  predicate Granted(c: Settings, calls: seq<Call>, k: nat)
    requires k < |calls|
  {
    Permits(c, BucketOf(c, Run(c, calls[..k]), calls[k].key, calls[k].at), calls[k].at)
  }

  /** How many calls of `key` in positions `i..j` were let through. */
  function Through(c: Settings, calls: seq<Call>, key: string, i: nat, j: nat): nat
    requires i <= j <= |calls|
  {
    if i == j then 0
    else Through(c, calls, key, i, j - 1) + (if calls[j - 1].key == key && Granted(c, calls, j - 1) then 1 else 0)
  }

  ghost predicate Chronological(calls: seq<Call>) { forall i, j | 0 <= i < j < |calls| :: calls[i].at <= calls[j].at }

  predicate InRange(c: Settings, b: Bucket) { 0.0 <= b.tokens <= c.capacity as real }

  lemma Product(a: real, b: real)
    requires a >= 0.0 && b >= 0.0
    ensures a * b >= 0.0
  {}

  lemma AfterInRange(c: Settings, b: Bucket, now: real)
    requires c.refill >= 0.0 && b.last <= now && InRange(c, b)
    ensures InRange(c, After(c, b, now))
  {
    Product(now - b.last, c.refill);
  }

  /** Tokens stay between zero and the capacity, and no bucket is ahead of the clock. */
  lemma {:induction false} BucketsInRange(c: Settings, calls: seq<Call>, key: string)
    requires Chronological(calls) && c.refill >= 0.0
    ensures key in Run(c, calls) ==>
              calls != [] && InRange(c, Run(c, calls)[key]) && Run(c, calls)[key].last <= calls[|calls| - 1].at
  {
    if calls != [] {
      hide After, InRange;
      var n := |calls| - 1;
      BucketsInRange(c, calls[..n], key);
      if n > 0 { assert calls[n - 1].at <= calls[n].at; }
      if calls[n].key == key {
        var b := BucketOf(c, Run(c, calls[..n]), key, calls[n].at);
        FullIsInRange(c, calls[n].at);
        AfterInRange(c, b, calls[n].at);
        assert After(c, b, calls[n].at).last == calls[n].at by { LastIsNow(c, b, calls[n].at); }
      }
    }
  }

  lemma FullIsInRange(c: Settings, now: real)
    ensures InRange(c, Bucket(c.capacity as real, now))
  {}

  lemma LastIsNow(c: Settings, b: Bucket, now: real)
    ensures After(c, b, now).last == now
  {}

  /** The account of a window that opened at `s`: `n` calls went through, `b` is what is left. */
  predicate Fits(c: Settings, n: nat, b: Bucket, s: real) {
    if b.last < s then n == 0 else n as real + b.tokens <= c.capacity as real + c.refill * (b.last - s)
  }

  lemma OneCall(c: Settings, n: nat, b: Bucket, s: real, u: real)
    requires c.refill >= 0.0 && b.last <= u && s <= u && InRange(c, b) && Fits(c, n, b, s)
    ensures Fits(c, n + (if Permits(c, b, u) then 1 else 0), After(c, b, u), s)
  {
    Inflow(c.refill, s, u);
    Flow(c.refill, s, b.last, u);
    var before, inflow, all := c.refill * (b.last - s), (u - b.last) * c.refill, c.refill * (u - s);
    var r, after := Refilled(c, b, u), After(c, b, u);
    assert r <= b.tokens + inflow && r <= c.capacity as real;
    assert all >= 0.0 && before + inflow == all;
    assert b.last >= s ==> n as real + b.tokens <= c.capacity as real + before;
    var more := n + (if Permits(c, b, u) then 1 else 0);
    assert after.last == u && more as real + after.tokens == n as real + r;
    assert n as real + r <= c.capacity as real + all;
  }

  lemma Flow(refill: real, s: real, a: real, u: real)
    ensures refill * (a - s) + (u - a) * refill == refill * (u - s)
  {}

  lemma FreshFits(c: Settings, b: Bucket, s: real)
    requires c.refill >= 0.0 && InRange(c, b)
    ensures Fits(c, 0, b, s)
  {
    if b.last >= s {
      Inflow(c.refill, s, b.last);
      var since := c.refill * (b.last - s);
      assert since >= 0.0 && 0 as real == 0.0;
      assert 0 as real + b.tokens <= c.capacity as real + since;
    }
  }

  lemma Inflow(refill: real, s: real, t: real)
    requires refill >= 0.0 && s <= t
    ensures refill * (t - s) >= 0.0
  {}

  /** Every window keeps its account. */
  lemma {:induction false} Account(c: Settings, calls: seq<Call>, key: string, i: nat, j: nat, s: real)
    requires Chronological(calls) && c.refill >= 0.0 && i <= j <= |calls|
    requires forall k | i <= k < j :: s <= calls[k].at
    ensures key !in Run(c, calls[..j]) ==> Through(c, calls, key, i, j) == 0
    ensures key in Run(c, calls[..j]) ==> Fits(c, Through(c, calls, key, i, j), Run(c, calls[..j])[key], s)
    decreases j
  {
    hide Fits, After, Permits, InRange;
    BucketsInRange(c, calls[..j], key);
    if i == j {
      if key in Run(c, calls[..j]) { FreshFits(c, Run(c, calls[..j])[key], s); }
    } else {
      var n := j - 1;
      Account(c, calls, key, i, n, s);
      assert calls[..j][..n] == calls[..n];
      BucketsInRange(c, calls[..n], key);
      if calls[n].key == key {
        var u := calls[n].at;
        var b := BucketOf(c, Run(c, calls[..n]), key, u);
        FullIsInRange(c, u);
        FreshFits(c, Bucket(c.capacity as real, u), s);
        assert b.last <= u by { if n > 0 { assert calls[n - 1].at <= u; } }
        OneCall(c, Through(c, calls, key, i, n), b, s, u);
      }
    }
  }

  /** Closing the account of a window at `t`. */
  lemma Closing(c: Settings, n: nat, b: Bucket, s: real, t: real)
    requires c.refill >= 0.0 && s <= t && b.last <= t && InRange(c, b) && Fits(c, n, b, s)
    ensures n as real <= c.capacity as real + c.refill * (t - s)
  {
    Inflow(c.refill, s, t);
    Product(t - b.last, c.refill);
    Flow(c.refill, s, b.last, t);
    var before, inflow, all := c.refill * (b.last - s), (t - b.last) * c.refill, c.refill * (t - s);
    assert all >= 0.0 && inflow >= 0.0 && before + inflow == all;
    assert b.last >= s ==> n as real + b.tokens <= c.capacity as real + before;
    assert n as real <= c.capacity as real + all;
  }

  lemma EmptyFits(c: Settings, s: real)
    ensures InRange(c, Bucket(0.0, s)) && Fits(c, 0, Bucket(0.0, s), s)
  {}

  /** In any window from `s` to `t` a key gets at most a full bucket and the refill of the window,
      whatever the other keys do. */
  lemma WindowBound(c: Settings, calls: seq<Call>, key: string, i: nat, j: nat, s: real, t: real)
    requires Chronological(calls) && c.refill >= 0.0 && i <= j <= |calls| && s <= t
    requires forall k | i <= k < j :: s <= calls[k].at <= t
    ensures Through(c, calls, key, i, j) as real <= c.capacity as real + c.refill * (t - s)
  {
    hide Run, InRange, Fits, Granted;
    var n := Through(c, calls, key, i, j);
    Account(c, calls, key, i, j, s);
    if n > 0 {
      assert i < j && calls[..j][j - 1] == calls[j - 1];
      BucketsInRange(c, calls[..j], key);
      Closing(c, n, Run(c, calls[..j])[key], s, t);
    } else {
      Closing(c, 0, Bucket(0.0, s), s, t) by { EmptyFits(c, s); }
    }
  }

  // ------------------------------------------------------------------ what a key gets at least

  /** How many calls of `key` there are in positions `i..j`. */
  function Asked(calls: seq<Call>, key: string, i: nat, j: nat): nat
    requires i <= j <= |calls|
  {
    if i == j then 0 else Asked(calls, key, i, j - 1) + (if calls[j - 1].key == key then 1 else 0)
  }

  /** What a key has saved by `t` that has asked for nothing since `s`. */
  function Saved(c: Settings, s: real, t: real): real { Min(c.capacity as real, c.refill * (t - s)) }

  /** The account from below: `n` of `asked` calls went through out of what had been saved; either
      none was turned away, or less than one call is left. */
  predicate Serves(b: Bucket, saved: real, asked: nat, n: nat) {
    n <= asked && b.tokens >= saved - n as real && (n == asked || n as real > saved - 1.0)
  }

  lemma ServedNext(c: Settings, b: Bucket, u: real, saved: real, asked: nat, n: nat)
    requires c.refill >= 0.0 && b.last <= u && saved <= c.capacity as real && Serves(b, saved, asked, n)
    ensures Serves(After(c, b, u), saved, asked + 1, n + (if Permits(c, b, u) then 1 else 0))
  {
    Product(u - b.last, c.refill);
    var inflow := (u - b.last) * c.refill;
    assert inflow >= 0.0;
    var r := Refilled(c, b, u);
    assert r == Min(c.capacity as real, b.tokens + inflow);
    hide Refilled;
    assert n as real >= 0.0;
    assert r >= saved - n as real;
  }

  /** The first call after a silence finds what was saved. */
  lemma SilenceFills(c: Settings, b: Bucket, s: real, t: real, u: real)
    requires c.refill >= 0.0 && b.last <= s <= t <= u && InRange(c, b)
    ensures Serves(Bucket(Refilled(c, b, u), u), Saved(c, s, t), 0, 0)
  {
    Product(s - b.last, c.refill);
    Product(u - t, c.refill);
    Flow(c.refill, b.last, s, u);
    assert c.refill * (t - s) <= (u - b.last) * c.refill by {
      assert (u - b.last) * c.refill == (u - t) * c.refill + c.refill * (t - s) + (s - b.last) * c.refill by {
        Thirds(c.refill, b.last, s, t, u);
      }
    }
  }

  lemma Thirds(refill: real, a: real, s: real, t: real, u: real)
    ensures (u - a) * refill == (u - t) * refill + refill * (t - s) + (s - a) * refill
  {}

  /** Refilled to the brim, a bucket answers as if it had been filled just now. */
  lemma RefilledAnswers(c: Settings, b: Bucket, u: real)
    ensures After(c, b, u) == After(c, Bucket(Refilled(c, b, u), u), u)
    ensures Permits(c, b, u) == Permits(c, Bucket(Refilled(c, b, u), u), u)
  {
    assert Refilled(c, b, u) <= c.capacity as real;
    assert (u - u) * c.refill == 0.0;
  }

  /** The key's bucket once the first of its calls in positions `i..j` has been made. */
  lemma {:induction false} AccountFromBelow(c: Settings, calls: seq<Call>, key: string, i: nat, j: nat, s: real, t: real)
    requires Chronological(calls) && c.refill >= 0.0 && i <= j <= |calls| && s <= t
    requires forall k | 0 <= k < i :: calls[k].key == key ==> calls[k].at <= s
    requires forall k | i <= k < j :: calls[k].key == key ==> t <= calls[k].at
    ensures Asked(calls, key, i, j) == 0 ==>
              Through(c, calls, key, i, j) == 0 &&
              (key in Run(c, calls[..j]) ==> InRange(c, Run(c, calls[..j])[key]) && Run(c, calls[..j])[key].last <= s)
    ensures Asked(calls, key, i, j) > 0 ==>
              key in Run(c, calls[..j]) &&
              Serves(Run(c, calls[..j])[key], Saved(c, s, t), Asked(calls, key, i, j), Through(c, calls, key, i, j))
    decreases j
  {
    hide Serves, After, Permits, InRange, Saved;
    if i == j {
      QuietSince(c, calls[..j], key, s);
    } else {
      var n := j - 1;
      AccountFromBelow(c, calls, key, i, n, s, t);
      assert calls[..j][..n] == calls[..n];
      if calls[n].key == key {
        var u := calls[n].at;
        var b := BucketOf(c, Run(c, calls[..n]), key, u);
        BucketsInRange(c, calls[..n], key);
        SavedFits(c, s, t);
        if Asked(calls, key, i, n) > 0 {
          assert b.last <= u by { if n > 0 { assert calls[n - 1].at <= u; } }
          ServedNext(c, b, u, Saved(c, s, t), Asked(calls, key, i, n), Through(c, calls, key, i, n));
        } else {
          var full := Bucket(Refilled(c, b, u), u);
          if key in Run(c, calls[..n]) { SilenceFills(c, b, s, t, u); } else { NewIsFull(c, s, t, u); }
          RefilledAnswers(c, b, u);
          ServedNext(c, full, u, Saved(c, s, t), 0, 0);
        }
      }
    }
  }

  lemma SavedFits(c: Settings, s: real, t: real)
    ensures Saved(c, s, t) <= c.capacity as real
  {}

  lemma NewIsFull(c: Settings, s: real, t: real, u: real)
    ensures Serves(Bucket(Refilled(c, Bucket(c.capacity as real, u), u), u), Saved(c, s, t), 0, 0)
  {
    assert (u - u) * c.refill == 0.0;
  }

  /** The bucket of a key was last touched by a call of the key. */
  lemma {:induction false} QuietSince(c: Settings, calls: seq<Call>, key: string, s: real)
    requires Chronological(calls) && c.refill >= 0.0
    requires forall k | 0 <= k < |calls| :: calls[k].key == key ==> calls[k].at <= s
    ensures key in Run(c, calls) ==> InRange(c, Run(c, calls)[key]) && Run(c, calls)[key].last <= s
  {
    BucketsInRange(c, calls, key);
    if calls != [] {
      hide After, InRange;
      var n := |calls| - 1;
      QuietSince(c, calls[..n], key, s);
      if calls[n].key == key { LastIsNow(c, BucketOf(c, Run(c, calls[..n]), key, calls[n].at), calls[n].at); }
    }
  }

  /** The partner of the bound: a key that has asked for nothing from `s` to `t` gets every call it
      makes from then on, or at least as many as the refill of its silence, up to a full bucket, less
      than one call aside; whatever the other keys do. */
  lemma SilenceIsRepaid(c: Settings, calls: seq<Call>, key: string, i: nat, j: nat, s: real, t: real)
    requires Chronological(calls) && c.refill >= 0.0 && i <= j <= |calls| && s <= t
    requires forall k | 0 <= k < i :: calls[k].key == key ==> calls[k].at <= s
    requires forall k | i <= k < j :: calls[k].key == key ==> t <= calls[k].at
    ensures
      var n := Through(c, calls, key, i, j);
      n == Asked(calls, key, i, j) || n as real > Saved(c, s, t) - 1.0
  {
    hide Run, Saved, Granted;
    AccountFromBelow(c, calls, key, i, j, s, t);
  }
}
