/** The fixed-window rate limiter of contact discovery. Times are in nanoseconds. */
module RateLimiter {
  import opened Options

  type Key = string
  type Time = int

  datatype Bucket = Bucket(count: nat, reset: Time)

  datatype Call = Call(key: Key, now: Time)

  // ---- one call ----

  predicate Expired(b: Option<Bucket>, now: Time) {
    b.None? || now > b.value.reset
  }

  predicate Admits(b: Option<Bucket>, limit: int, now: Time) {
    Expired(b, now) || b.value.count < limit
  }

  function NextBucket(b: Option<Bucket>, limit: int, window: int, now: Time): Option<Bucket> {
    if Expired(b, now) then Some(Bucket(1, now + window))
    else if b.value.count >= limit then b
    else Some(Bucket(b.value.count + 1, b.value.reset))
  }

  function BucketOf(buckets: map<Key, Bucket>, key: Key): Option<Bucket> {
    if key in buckets then Some(buckets[key]) else None
  }

  class Limiter {
    var buckets: map<Key, Bucket>

    constructor ()
      ensures buckets == map[]
    {
      buckets := map[];
    }

    method Allow(key: Key, limit: int, window: int, now: Time) returns (ok: bool)
      modifies this
      ensures ok == Admits(BucketOf(old(buckets), key), limit, now)
      ensures BucketOf(buckets, key) == NextBucket(BucketOf(old(buckets), key), limit, window, now)
      ensures forall k :: k != key ==> BucketOf(buckets, k) == BucketOf(old(buckets), k)
    {
      if key !in buckets || now > buckets[key].reset {
        buckets := buckets[key := Bucket(1, now + window)];
        return true;
      }
      var bucket := buckets[key];
      if bucket.count >= limit {
        return false;
      }
      buckets := buckets[key := bucket.(count := bucket.count + 1)];
      return true;
    }

    /** Without a positive limit and window the limiter is off. */
    method AllowRequest(key: Key, limit: int, window: int, now: Time) returns (ok: bool)
      modifies this
      ensures limit <= 0 || window <= 0 ==> ok && buckets == old(buckets)
      ensures limit > 0 && window > 0 ==>
                && ok == Admits(BucketOf(old(buckets), key), limit, now)
                && BucketOf(buckets, key) == NextBucket(BucketOf(old(buckets), key), limit, window, now)
                && forall k :: k != key ==> BucketOf(buckets, k) == BucketOf(old(buckets), k)
    {
      if limit <= 0 || window <= 0 {
        return true;
      }
      ok := Allow(key, limit, window, now);
    }
  }

  // ---- runs with one limit and one window ----

  datatype Rate = Rate(limit: int, window: int)

  predicate On(r: Rate) {
    r.limit > 0 && r.window > 0
  }

  /** The bucket of `key` after the first `k` calls. */
  function After(calls: seq<Call>, r: Rate, key: Key, k: nat): Option<Bucket>
    requires k <= |calls|
  {
    if k == 0 then None
    else
      var before, c := After(calls, r, key, k - 1), calls[k - 1];
      if c.key == key then NextBucket(before, r.limit, r.window, c.now) else before
  }

  /** Call `i` is a call on `key` that was allowed. */
  predicate Allowed(calls: seq<Call>, r: Rate, key: Key, i: nat)
    requires i < |calls|
  {
    calls[i].key == key && Admits(After(calls, r, key, i), r.limit, calls[i].now)
  }

  /** How many of the first `k` calls were allowed on `key` at a time from `low` to `high`. */
  function Count(calls: seq<Call>, r: Rate, key: Key, k: nat, low: Time, high: Time): nat
    requires k <= |calls|
  {
    if k == 0 then 0
    else Count(calls, r, key, k - 1, low, high)
         + if Allowed(calls, r, key, k - 1) && low <= calls[k - 1].now <= high then 1 else 0
  }

  predicate Monotone(calls: seq<Call>) {
    forall i, j :: 0 <= i < j < |calls| ==> calls[i].now <= calls[j].now
  }

  lemma {:induction false} CountSplits(calls: seq<Call>, r: Rate, key: Key, k: nat, low: Time, middle: Time, high: Time)
    requires k <= |calls| && low <= middle + 1 && middle <= high
    ensures Count(calls, r, key, k, low, high)
         == Count(calls, r, key, k, low, middle) + Count(calls, r, key, k, middle + 1, high)
  {
    if k > 0 {
      CountSplits(calls, r, key, k - 1, low, middle, high);
    }
  }

  lemma {:induction false} CountGrows(calls: seq<Call>, r: Rate, key: Key, k: nat, low: Time, high: Time, low': Time, high': Time)
    requires k <= |calls| && low' <= low && high <= high'
    ensures Count(calls, r, key, k, low, high) <= Count(calls, r, key, k, low', high')
  {
    if k > 0 {
      CountGrows(calls, r, key, k - 1, low, high, low', high');
    }
  }

  // ---- the invariant ----

  /** What the bucket of `key` says about the calls so far: it counts exactly the allowed ones from
      the one that opened it on, and the window just before it holds fewer than `limit`. */
  ghost predicate Tracks(calls: seq<Call>, r: Rate, key: Key, k: nat)
    requires k <= |calls|
  {
    match After(calls, r, key, k)
    case None => forall low, high :: Count(calls, r, key, k, low, high) == 0
    case Some(b) => k > 0 && TracksBucket(calls, r, key, k, b, calls[k - 1].now)
  }

  /** `end` is the time of the last call. */
  ghost predicate TracksBucket(calls: seq<Call>, r: Rate, key: Key, k: nat, b: Bucket, end: Time)
    requires k <= |calls|
  {
    var start := b.reset - r.window;
    && 1 <= b.count <= r.limit && start <= end
    && (forall low, high :: low == start && end <= high ==> Count(calls, r, key, k, low, high) == b.count)
    && (forall low, high :: start < low ==> Count(calls, r, key, k, low, high) <= b.count - 1)
    && (forall low, high :: start - r.window <= low && high < start ==> Count(calls, r, key, k, low, high) <= r.limit - 1)
    && (forall low, high :: b.reset < low ==> Count(calls, r, key, k, low, high) == 0)
    && (forall low, high :: high - low <= r.window ==> Count(calls, r, key, k, low, high) <= 2 * r.limit - 1)
  }

  /** A call that is not counted for `key`. */
  lemma NotCounted(calls: seq<Call>, r: Rate, key: Key, k: nat)
    requires k < |calls| && Monotone(calls) && On(r) && Tracks(calls, r, key, k) && !Allowed(calls, r, key, k)
    ensures Tracks(calls, r, key, k + 1)
  {
    var next := k + 1;
    assert After(calls, r, key, next) == After(calls, r, key, k);
    assert forall low, high :: Count(calls, r, key, next, low, high) == Count(calls, r, key, k, low, high);
    hide Count;
    var b := After(calls, r, key, k);
    if b.Some? {
      assert calls[k - 1].now <= calls[k].now;
      assert TracksBucket(calls, r, key, next, b.value, calls[k].now);
    }
  }

  lemma OneAllowed(calls: seq<Call>, r: Rate, key: Key, k: nat, low: Time, high: Time)
    requires k < |calls| && Allowed(calls, r, key, k)
    ensures Count(calls, r, key, k + 1, low, high)
         == Count(calls, r, key, k, low, high) + if low <= calls[k].now <= high then 1 else 0
  {
  }

  lemma SameBucket(calls: seq<Call>, r: Rate, key: Key, k: nat)
    requires k < |calls| && Monotone(calls) && On(r) && Tracks(calls, r, key, k) && calls[k].key == key
    requires Allowed(calls, r, key, k) && !Expired(After(calls, r, key, k), calls[k].now)
    ensures Tracks(calls, r, key, k + 1)
  {
    hide Count;
    var b, now := After(calls, r, key, k).value, calls[k].now;
    var start := b.reset - r.window;
    var next := k + 1;
    assert After(calls, r, key, next) == Some(Bucket(b.count + 1, b.reset));
    assert start <= calls[k - 1].now <= now <= b.reset;
    forall low, high ensures Count(calls, r, key, next, low, high)
                          == Count(calls, r, key, k, low, high) + if low <= now <= high then 1 else 0 {
      OneAllowed(calls, r, key, k, low, high);
    }
    forall low, high | high - low <= r.window && low <= now <= high
      ensures Count(calls, r, key, k, low, high) + 1 <= 2 * r.limit - 1
    {
      if low < start {
        CountSplits(calls, r, key, k, low, start - 1, high);
      } else {
        CountGrows(calls, r, key, k, low, high, start, high);
      }
    }
    assert TracksBucket(calls, r, key, next, Bucket(b.count + 1, b.reset), now);
  }

  lemma NewBucket(calls: seq<Call>, r: Rate, key: Key, k: nat)
    requires k < |calls| && Monotone(calls) && On(r) && Tracks(calls, r, key, k) && calls[k].key == key
    requires Expired(After(calls, r, key, k), calls[k].now)
    ensures Tracks(calls, r, key, k + 1)
  {
    hide Count;
    var before, now := After(calls, r, key, k), calls[k].now;
    var next := k + 1;
    assert After(calls, r, key, next) == Some(Bucket(1, now + r.window));
    forall low, high ensures Count(calls, r, key, next, low, high)
                          == Count(calls, r, key, k, low, high) + if low <= now <= high then 1 else 0 {
      OneAllowed(calls, r, key, k, low, high);
    }
    forall low, high | now <= low ensures Count(calls, r, key, k, low, high) == 0 {
      assert before.Some? ==> before.value.reset < low;
    }
    forall low, high | now - r.window <= low && high < now ensures Count(calls, r, key, k, low, high) <= r.limit - 1 {
      assert before.Some? ==> before.value.reset - r.window < low;
    }
    forall low, high | high - low <= r.window && low <= now <= high
      ensures Count(calls, r, key, k, low, high) + 1 <= 2 * r.limit - 1
    {
      CountSplits(calls, r, key, k, low, now - 1, high);
    }
    assert TracksBucket(calls, r, key, next, Bucket(1, now + r.window), now);
  }

  lemma {:induction false} AlwaysTracks(calls: seq<Call>, r: Rate, key: Key, k: nat)
    requires k <= |calls| && Monotone(calls) && On(r)
    ensures Tracks(calls, r, key, k)
  {
    if k > 0 {
      AlwaysTracks(calls, r, key, k - 1);
      hide Tracks;
      if !Allowed(calls, r, key, k - 1) {
        NotCounted(calls, r, key, k - 1);
      } else if Expired(After(calls, r, key, k - 1), calls[k - 1].now) {
        NewBucket(calls, r, key, k - 1);
      } else {
        SameBucket(calls, r, key, k - 1);
      }
    }
  }

  // ---- the bounds ----

  /** For every non-decreasing clock and every sequence of calls, no closed interval of length
      `window` holds 2 * limit allowed calls on one key; a bucket never admits more than `limit`. */
  lemma WindowBound(calls: seq<Call>, r: Rate, key: Key, low: Time)
    requires Monotone(calls) && On(r)
    ensures Count(calls, r, key, |calls|, low, low + r.window) <= 2 * r.limit - 1
    ensures match After(calls, r, key, |calls|)
            case None => Count(calls, r, key, |calls|, low, low + r.window) == 0
            case Some(b) => Count(calls, r, key, |calls|, b.reset - r.window, b.reset) <= r.limit
  {
    hide Count;
    AlwaysTracks(calls, r, key, |calls|);
    var last := After(calls, r, key, |calls|);
    if last.Some? {
      var b, end := last.value, calls[|calls| - 1].now;
      CountGrows(calls, r, key, |calls|, b.reset - r.window, b.reset, b.reset - r.window, if end > b.reset then end else b.reset);
    }
  }

  /** A call is refused only when `limit` calls on its key were allowed within the last window. */
  lemma RefusedOnlyWhenFull(calls: seq<Call>, r: Rate, key: Key, i: nat)
    requires i < |calls| && Monotone(calls) && On(r) && calls[i].key == key && !Allowed(calls, r, key, i)
    ensures Count(calls, r, key, i, calls[i].now - r.window, calls[i].now) >= r.limit
  {
    hide Count;
    AlwaysTracks(calls, r, key, i);
    var b := After(calls, r, key, i).value;
    CountGrows(calls, r, key, i, b.reset - r.window, calls[i].now, calls[i].now - r.window, calls[i].now);
  }

  function BurstTime(r: Rate, i: nat): Time {
    if i == 0 then 0 else if i < r.limit then r.window else r.window + 1
  }

  /** One call at time 0, limit - 1 calls at the last moment of its bucket and limit calls right after. */
  function Bursts(r: Rate, key: Key): (calls: seq<Call>)
    requires On(r)
    ensures Monotone(calls) && |calls| == 2 * r.limit
    ensures forall i :: 0 <= i < |calls| ==> calls[i] == Call(key, BurstTime(r, i))
  {
    seq(2 * r.limit, i requires 0 <= i => Call(key, BurstTime(r, i)))
  }

  lemma {:induction false} BurstsAllowed(calls: seq<Call>, r: Rate, key: Key, k: nat)
    requires On(r) && k <= |calls| == 2 * r.limit
    requires forall i :: 0 <= i < |calls| ==> calls[i] == Call(key, BurstTime(r, i))
    ensures After(calls, r, key, k)
         == if k == 0 then None
            else if k <= r.limit then Some(Bucket(k, r.window))
            else Some(Bucket(k - r.limit, 2 * r.window + 1))
    ensures Count(calls, r, key, k, 1, r.window + 1) == if k == 0 then 0 else k - 1
  {
    if k > 0 {
      BurstsAllowed(calls, r, key, k - 1);
      assert Allowed(calls, r, key, k - 1);
    }
  }

  /** The bound cannot be improved: for every limit and window a run reaches it. */
  lemma BoundIsReached(r: Rate, key: Key)
    requires On(r)
    ensures exists calls :: Monotone(calls) && Count(calls, r, key, |calls|, 1, 1 + r.window) == 2 * r.limit - 1
  {
    var calls := Bursts(r, key);
    BurstsAllowed(calls, r, key, |calls|);
    assert Monotone(calls) && Count(calls, r, key, |calls|, 1, 1 + r.window) == 2 * r.limit - 1;
  }

  // ---- other keys ----

  /** The times of the calls on one key. */
  function TimesOf(calls: seq<Call>, key: Key, k: nat): seq<Time>
    requires k <= |calls|
  {
    if k == 0 then []
    else TimesOf(calls, key, k - 1) + if calls[k - 1].key == key then [calls[k - 1].now] else []
  }

  function Decisions(calls: seq<Call>, r: Rate, key: Key, k: nat): seq<bool>
    requires k <= |calls|
  {
    if k == 0 then []
    else Decisions(calls, r, key, k - 1)
         + if calls[k - 1].key == key then [Allowed(calls, r, key, k - 1)] else []
  }

  function Alone(times: seq<Time>, key: Key): seq<Call> {
    seq(|times|, i requires 0 <= i < |times| => Call(key, times[i]))
  }

  lemma {:induction false} Prefixes(calls: seq<Call>, more: seq<Call>, r: Rate, key: Key, k: nat)
    requires k <= |calls| <= |more| && forall i :: 0 <= i < k ==> calls[i] == more[i]
    ensures After(calls, r, key, k) == After(more, r, key, k)
    ensures Decisions(calls, r, key, k) == Decisions(more, r, key, k)
  {
    if k > 0 {
      Prefixes(calls, more, r, key, k - 1);
    }
  }

  /** Calls on other keys do not matter: the decisions on a key are those of a run of its own
      calls alone. */
  lemma {:induction false} OtherKeysIrrelevant(calls: seq<Call>, r: Rate, key: Key, k: nat)
    requires k <= |calls|
    ensures var own := Alone(TimesOf(calls, key, k), key);
            && Decisions(calls, r, key, k) == Decisions(own, r, key, |own|)
            && After(calls, r, key, k) == After(own, r, key, |own|)
  {
    if k > 0 {
      OtherKeysIrrelevant(calls, r, key, k - 1);
      var before, own := Alone(TimesOf(calls, key, k - 1), key), Alone(TimesOf(calls, key, k), key);
      if calls[k - 1].key == key {
        Prefixes(before, own, r, key, |before|);
        assert own[|before|] == calls[k - 1];
      } else {
        assert own == before;
      }
    }
  }
}
