/** The sliding-window limiter of the login and refresh endpoints
    (openjax-gateway/src/auth/rate_limit.rs).  The clock is a parameter. */
module RateLimit {
  /** The popping loop: entries older than the window leave from the front. */
  function DropOld(bucket: seq<int>, now: int, window: nat): seq<int> {
    if bucket == [] || now - bucket[0] <= window then bucket else DropOld(bucket[1..], now, window)
  }

  function BucketOf(buckets: map<string, seq<int>>, key: string): seq<int> {
    if key in buckets then buckets[key] else []
  }

  function Step(buckets: map<string, seq<int>>, limit: nat, window: nat, key: string, now: int)
    : (map<string, seq<int>>, bool)
  {
    var kept := DropOld(BucketOf(buckets, key), now, window);
    if |kept| >= limit then (buckets[key := kept], false) else (buckets[key := kept + [now]], true)
  }

  class SlidingWindowRateLimiter {
    const limit: nat
    const window: nat
    var buckets: map<string, seq<int>>

    constructor (limit: nat, window: nat)
      ensures this.limit == limit && this.window == window && buckets == map[]
    {
      this.limit, this.window, buckets := limit, window, map[];
    }

    method Allow(key: string, now: int) returns (ok: bool)
      modifies this
      ensures (buckets, ok) == Step(old(buckets), limit, window, key, now)
    {
      var bucket := if key in buckets then buckets[key] else [];
      while bucket != []
        invariant DropOld(bucket, now, window) == DropOld(BucketOf(old(buckets), key), now, window)
        decreases |bucket|
      {
        if now - bucket[0] <= window {
          break;
        }
        bucket := bucket[1..];
      }
      if |bucket| >= limit {
        buckets := buckets[key := bucket];
        return false;
      }
      buckets := buckets[key := bucket + [now]];
      ok := true;
    }
  }

  // ---- The rule, said over the whole past --------------------------------

  datatype Request = Request(key: string, now: int)

  function CountIn(times: seq<int>, lo: int, hi: int): nat {
    if times == [] then 0
    else CountIn(times[..|times| - 1], lo, hi) + (if lo <= times[|times| - 1] <= hi then 1 else 0)
  }

  /** All times at which `key` was let through: a request is let through exactly when
      fewer than `limit` were within the window that ends now. */
  function AllowedTimes(reqs: seq<Request>, limit: nat, window: nat, key: string): seq<int> {
    if reqs == [] then []
    else
      var past, r := AllowedTimes(reqs[..|reqs| - 1], limit, window, key), reqs[|reqs| - 1];
      if r.key == key && CountIn(past, r.now - window, r.now) < limit then past + [r.now] else past
  }

  predicate Admits(reqs: seq<Request>, limit: nat, window: nat, r: Request) {
    CountIn(AllowedTimes(reqs, limit, window, r.key), r.now - window, r.now) < limit
  }

  function Buckets(reqs: seq<Request>, limit: nat, window: nat): map<string, seq<int>> {
    if reqs == [] then map[]
    else
      var r := reqs[|reqs| - 1];
      Step(Buckets(reqs[..|reqs| - 1], limit, window), limit, window, r.key, r.now).0
  }

  /** The clock never runs backwards. */
  ghost predicate Monotone(reqs: seq<Request>) {
    forall i, j :: 0 <= i <= j < |reqs| ==> reqs[i].now <= reqs[j].now
  }

  ghost predicate Sorted(s: seq<int>) {
    forall i, j :: 0 <= i <= j < |s| ==> s[i] <= s[j]
  }

  /** The bucket is what is left of the full record; what is gone is out of every
      window from `clock` on. */
  ghost predicate Matches(bucket: seq<int>, full: seq<int>, window: nat, clock: int) {
    && Sorted(full)
    && (forall i :: 0 <= i < |full| ==> full[i] <= clock)
    && |bucket| <= |full|
    && bucket == full[|full| - |bucket|..]
    && (forall i :: 0 <= i < |full| - |bucket| ==> full[i] < clock - window)
  }

  lemma {:induction false} DropMatches(bucket: seq<int>, full: seq<int>, window: nat, clock: int, now: int)
    requires Matches(bucket, full, window, clock) && clock <= now
    ensures var kept := DropOld(bucket, now, window);
      && Matches(kept, full, window, now)
      && (forall i :: 0 <= i < |kept| ==> now - window <= kept[i] <= now)
    decreases |bucket|
  {
    if bucket != [] {
      var gone := |full| - |bucket|;
      assert bucket[0] == full[gone];
      if now - bucket[0] > window {
        assert bucket[1..] == full[gone + 1..];
        assert Matches(bucket[1..], full, window, now);
        DropMatches(bucket[1..], full, window, now, now);
      } else {
        forall i | 0 <= i < |bucket| ensures now - window <= bucket[i] <= now {
          assert bucket[i] == full[gone + i];
        }
      }
    }
  }

  lemma {:induction false} CountOutIn(full: seq<int>, gone: nat, lo: int, hi: int)
    requires gone <= |full|
    requires forall i :: 0 <= i < gone ==> full[i] < lo
    requires forall i :: gone <= i < |full| ==> lo <= full[i] <= hi
    ensures CountIn(full, lo, hi) == |full| - gone
  {
    if full != [] {
      var n := |full| - 1;
      if gone == |full| {
        CountOutIn(full[..n], n, lo, hi);
      } else {
        CountOutIn(full[..n], gone, lo, hi);
      }
    }
  }

  lemma {:induction false} StepMatches(bucket: seq<int>, full: seq<int>, limit: nat, window: nat, clock: int, now: int)
    requires Matches(bucket, full, window, clock) && clock <= now
    ensures var kept := DropOld(bucket, now, window);
      && |kept| == CountIn(full, now - window, now)
      && Matches(kept, full, window, now)
      && Matches(kept + [now], full + [now], window, now)
  {
    hide DropOld, CountIn, Matches;
    DropMatches(bucket, full, window, clock, now);
    MatchesCount(DropOld(bucket, now, window), full, window, now);
  }

  /** Of times that all lie in the window, the count is their number, and one more fits. */
  lemma {:induction false} MatchesCount(kept: seq<int>, full: seq<int>, window: nat, now: int)
    requires Matches(kept, full, window, now)
    requires forall i :: 0 <= i < |kept| ==> now - window <= kept[i] <= now
    ensures |kept| == CountIn(full, now - window, now)
    ensures Matches(kept + [now], full + [now], window, now)
  {
    var gone := |full| - |kept|;
    forall i | gone <= i < |full| ensures now - window <= full[i] <= now {
      assert full[i] == kept[i - gone];
    }
    CountOutIn(full, gone, now - window, now);
  }

  lemma {:induction false} MatchesLater(bucket: seq<int>, full: seq<int>, window: nat, clock: int, now: int)
    requires Matches(bucket, full, window, clock) && clock <= now
    ensures Matches(bucket, full, window, now)
  {
  }

  lemma {:induction false} BucketAfter(buckets: map<string, seq<int>>, limit: nat, window: nat, r: Request, key: string)
    ensures BucketOf(Step(buckets, limit, window, r.key, r.now).0, key) ==
      if r.key != key then BucketOf(buckets, key)
      else
        var kept := DropOld(BucketOf(buckets, key), r.now, window);
        if |kept| >= limit then kept else kept + [r.now]
  {
  }

  lemma {:induction false} OneRequestMore(reqs: seq<Request>, limit: nat, window: nat, key: string)
    requires reqs != []
    ensures var past, r := reqs[..|reqs| - 1], reqs[|reqs| - 1];
      var bucket, full := BucketOf(Buckets(past, limit, window), key), AllowedTimes(past, limit, window, key);
      var kept := DropOld(bucket, r.now, window);
      && BucketOf(Buckets(reqs, limit, window), key) ==
           (if r.key != key then bucket else if |kept| >= limit then kept else kept + [r.now])
      && AllowedTimes(reqs, limit, window, key) ==
           (if r.key == key && CountIn(full, r.now - window, r.now) < limit then full + [r.now] else full)
  {
    hide Step, DropOld, BucketOf, CountIn;
    BucketAfter(Buckets(reqs[..|reqs| - 1], limit, window), limit, window, reqs[|reqs| - 1], key);
  }

  lemma {:induction false} NoRequests(limit: nat, window: nat, key: string)
    ensures Buckets([], limit, window) == map[] && AllowedTimes([], limit, window, key) == []
  {
  }

  lemma {:induction false} RunMatches(reqs: seq<Request>, limit: nat, window: nat, key: string, clock: int)
    requires Monotone(reqs) && forall i :: 0 <= i < |reqs| ==> reqs[i].now <= clock
    ensures Matches(BucketOf(Buckets(reqs, limit, window), key), AllowedTimes(reqs, limit, window, key), window, clock)
  {
    hide Matches, Step, DropOld, BucketOf, CountIn, Monotone, Buckets, AllowedTimes;
    if reqs == [] {
      NoRequests(limit, window, key);
      NothingMatches(window, key, clock);
    } else {
      var past, r := reqs[..|reqs| - 1], reqs[|reqs| - 1];
      assert reqs == past + [r];
      MonotoneSnoc(past, r);
      RunMatches(past, limit, window, key, r.now);
      var bucket, full := BucketOf(Buckets(past, limit, window), key), AllowedTimes(past, limit, window, key);
      OneRequestMore(reqs, limit, window, key);
      if r.key == key { StepMatches(bucket, full, limit, window, r.now, r.now); }
      MatchesLater(BucketOf(Buckets(reqs, limit, window), key), AllowedTimes(reqs, limit, window, key), window, r.now,
          clock);
    }
  }

  lemma {:induction false} NothingMatches(window: nat, key: string, clock: int)
    ensures Matches(BucketOf(map[], key), [], window, clock)
  {
  }

  lemma {:induction false} MonotoneSnoc(reqs: seq<Request>, r: Request)
    requires Monotone(reqs + [r])
    ensures Monotone(reqs) && forall i :: 0 <= i < |reqs| ==> reqs[i].now <= r.now
  {
    var all := reqs + [r];
    assert forall i :: 0 <= i < |reqs| ==> all[i] == reqs[i];
    assert all[|reqs|] == r;
  }

  /** The limiter answers by the rule: refused exactly when `limit` requests of the
      key were already let through in [now - window, now]. */
  lemma {:induction false} AnswersByTheRule(reqs: seq<Request>, limit: nat, window: nat, r: Request)
    requires Monotone(reqs + [r])
    ensures Step(Buckets(reqs, limit, window), limit, window, r.key, r.now).1 <==> Admits(reqs, limit, window, r)
    ensures CountIn(AllowedTimes(reqs, limit, window, r.key), r.now - window, r.now) <= limit
  {
    hide Matches, Monotone, DropOld, CountIn, AllowedTimes;
    MonotoneSnoc(reqs, r);
    RunMatches(reqs, limit, window, r.key, r.now);
    var full := AllowedTimes(reqs, limit, window, r.key);
    StepMatches(BucketOf(Buckets(reqs, limit, window), r.key), full, limit, window, r.now, r.now);
    IntervalBound(reqs, limit, window, r.key, r.now - window);
    assert r.now - window + window == r.now;
  }

  // ---- No interval is overfull -------------------------------------------

  /** Any `limit + 1` successive admissions span more than the window. */
  ghost predicate Spaced(full: seq<int>, limit: nat, window: nat) {
    forall i :: 0 <= i && i + limit < |full| ==> full[i + limit] - full[i] > window
  }

  /** With the last k entries inside [lo, hi], the count is at least k. */
  lemma {:induction false} CountSuffix(full: seq<int>, k: nat, lo: int, hi: int)
    requires k <= |full|
    requires forall i :: |full| - k <= i < |full| ==> lo <= full[i] <= hi
    ensures CountIn(full, lo, hi) >= k
    decreases k
  {
    if k > 0 { CountSuffix(full[..|full| - 1], k - 1, lo, hi); }
  }

  ghost predicate Settled(full: seq<int>, limit: nat, window: nat, clock: int) {
    Sorted(full) && Spaced(full, limit, window) && forall i :: 0 <= i < |full| ==> full[i] <= clock
  }

  lemma {:induction false} AllowedSettled(reqs: seq<Request>, limit: nat, window: nat, key: string, clock: int)
    requires Monotone(reqs) && forall i :: 0 <= i < |reqs| ==> reqs[i].now <= clock
    ensures Settled(AllowedTimes(reqs, limit, window, key), limit, window, clock)
  {
    if reqs != [] {
      hide Settled, CountIn, Monotone;
      var before, r := reqs[..|reqs| - 1], reqs[|reqs| - 1];
      assert reqs == before + [r];
      MonotoneSnoc(before, r);
      AllowedSettled(before, limit, window, key, r.now);
      var past := AllowedTimes(before, limit, window, key);
      SettledSnoc(past, limit, window, r.now);
    }
  }

  lemma {:induction false} SettledSnoc(past: seq<int>, limit: nat, window: nat, now: int)
    requires Settled(past, limit, window, now)
    ensures CountIn(past, now - window, now) < limit ==> Settled(past + [now], limit, window, now)
  {
    var i := |past| - limit;
    if 0 <= i < |past| && now - past[i] <= window {
      CountSuffix(past, limit, now - window, now);
    }
  }

  /** Of a spaced, sorted list at most `limit` entries fall into one window. */
  lemma {:induction false} SpacedCount(full: seq<int>, limit: nat, window: nat, lo: int)
    requires Sorted(full) && Spaced(full, limit, window)
    ensures CountIn(full, lo, lo + window) <= limit
  {
    if full != [] {
      var n := |full| - 1;
      var most, last := full[..n], full[n];
      if lo <= last <= lo + window {
        if |full| > limit {
          assert full[n - limit + limit] - full[n - limit] > window;
          forall i | 0 <= i < n - limit + 1 && i < n ensures most[i] < lo {
            assert full[i] <= full[n - limit];
          }
          BelowOut(most, n - limit + 1, lo, lo + window);
        } else {
          CountLength(most, lo, lo + window);
        }
      } else {
        SpacedCount(most, limit, window, lo);
      }
    }
  }

  lemma {:induction false} CountLength(s: seq<int>, lo: int, hi: int)
    ensures CountIn(s, lo, hi) <= |s|
  {
    if s != [] { CountLength(s[..|s| - 1], lo, hi); }
  }

  /** Entries below `lo` do not count. */
  lemma {:induction false} BelowOut(s: seq<int>, gone: nat, lo: int, hi: int)
    requires gone <= |s| + 1
    requires forall i :: 0 <= i < gone && i < |s| ==> s[i] < lo
    ensures CountIn(s, lo, hi) <= if gone <= |s| then |s| - gone else 0
  {
    if s != [] { BelowOut(s[..|s| - 1], if gone <= |s| then gone else |s|, lo, hi); }
  }

  /** Every closed interval as long as the window holds at most `limit` admissions of a key. */
  lemma {:induction false} IntervalBound(reqs: seq<Request>, limit: nat, window: nat, key: string, lo: int)
    requires Monotone(reqs)
    ensures CountIn(AllowedTimes(reqs, limit, window, key), lo, lo + window) <= limit
  {
    var clock := if reqs == [] then 0 else reqs[|reqs| - 1].now;
    AllowedSettled(reqs, limit, window, key, clock);
    SpacedCount(AllowedTimes(reqs, limit, window, key), limit, window, lo);
  }

  // ---- Keys do not touch each other --------------------------------------

  function Only(reqs: seq<Request>, key: string): seq<Request> {
    if reqs == [] then []
    else
      var last := reqs[|reqs| - 1];
      Only(reqs[..|reqs| - 1], key) + (if last.key == key then [last] else [])
  }

  /** A key's bucket is the same as if nobody else had ever called, whatever the clock does. */
  lemma {:induction false} KeysIndependent(reqs: seq<Request>, limit: nat, window: nat, key: string)
    ensures BucketOf(Buckets(reqs, limit, window), key) == BucketOf(Buckets(Only(reqs, key), limit, window), key)
  {
    hide Step, BucketOf, DropOld;
    if reqs != [] {
      var past, r := reqs[..|reqs| - 1], reqs[|reqs| - 1];
      KeysIndependent(past, limit, window, key);
      BucketAfter(Buckets(past, limit, window), limit, window, r, key);
      if r.key == key {
        var own := Only(reqs, key);
        assert own[..|own| - 1] == Only(past, key);
        BucketAfter(Buckets(Only(past, key), limit, window), limit, window, r, key);
      } else {
        assert Only(reqs, key) == Only(past, key);
      }
    }
  }
}
