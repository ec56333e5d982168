/** The fixed-window request limiter. */
module RateLimit {
  import opened Counting

  datatype Bucket = Bucket(count: int, reset: int)

  type Buckets = map<string, Bucket>

  const MAX_BUCKETS := 10000

  datatype Verdict = Verdict(buckets: Buckets, allowed: bool, cleared: bool)

  predicate Opens(bs: Buckets, key: string, now: int) {
    key !in bs || now > bs[key].reset
  }

  /** One request: a missing or expired bucket is opened afresh, after dropping the whole map when it has
      grown too large; otherwise the bucket counts up to the limit. */
  function Decide(bs: Buckets, limit: int, window: int, key: string, now: int): Verdict {
    if Opens(bs, key, now) then
      var cleared := |bs| > MAX_BUCKETS;
      Verdict((if cleared then map[] else bs)[key := Bucket(1, now + window)], true, cleared)
    else if bs[key].count >= limit then Verdict(bs, false, false)
    else Verdict(bs[key := bs[key].(count := bs[key].count + 1)], true, false)
  }

  class RateLimiter {
    var buckets: Buckets
    const limit: int
    const window: int

    constructor (limit: int, window: int)
      ensures buckets == map[] && this.limit == limit && this.window == window
    {
      this.limit := limit;
      this.window := window;
      buckets := map[];
    }

    method Allow(key: string, now: int) returns (ok: bool)
      modifies this
      ensures var v := Decide(old(buckets), limit, window, key, now); buckets == v.buckets && ok == v.allowed
      ensures !ok <==> key in old(buckets) && now <= old(buckets[key].reset) && old(buckets[key].count) >= limit
      ensures !ok ==> buckets == old(buckets)
      ensures old(|buckets|) <= 10_000 ==> buckets.Keys == old(buckets.Keys) + {key}
      ensures old(|buckets|) > 10_000 && old(Opens(buckets, key, now)) ==> buckets.Keys == {key}
    {
      if key !in buckets || now > buckets[key].reset {
        if |buckets| > MAX_BUCKETS {
          buckets := map[];
        }
        buckets := buckets[key := Bucket(1, now + window)];
        return true;
      }
      if buckets[key].count >= limit {
        return false;
      }
      buckets := buckets[key := buckets[key].(count := buckets[key].count + 1)];
      return true;
    }
  }

  // ---- histories ----

  datatype Request = Request(key: string, time: int)

  datatype Policy = Policy(limit: int, window: int)

  function After(p: Policy, rs: seq<Request>): Buckets {
    if rs == [] then map[]
    else
      var r := rs[|rs| - 1];
      Decide(After(p, rs[..|rs| - 1]), p.limit, p.window, r.key, r.time).buckets
  }

  /** The verdict on the last request. */
  function VerdictAt(p: Policy, rs: seq<Request>): Verdict
    requires rs != []
  {
    var r := rs[|rs| - 1];
    Decide(After(p, rs[..|rs| - 1]), p.limit, p.window, r.key, r.time)
  }

  predicate Within(p: Policy, t: int, time: int) {
    t <= time <= t + p.window
  }

  /** Requests of the key allowed inside the closed interval [t, t + window]. */
  function AllowedIn(p: Policy, rs: seq<Request>, key: string, t: int): nat {
    if rs == [] then 0
    else
      var r := rs[|rs| - 1];
      AllowedIn(p, rs[..|rs| - 1], key, t) + Bit(r.key == key && Within(p, t, r.time) && VerdictAt(p, rs).allowed)
  }

  /** Times the map was dropped inside that interval. */
  function ClearsIn(p: Policy, rs: seq<Request>, t: int): nat {
    if rs == [] then 0
    else ClearsIn(p, rs[..|rs| - 1], t) + Bit(Within(p, t, rs[|rs| - 1].time) && VerdictAt(p, rs).cleared)
  }

  predicate Monotone(rs: seq<Request>) {
    forall i, j :: 0 <= i < j < |rs| ==> rs[i].time <= rs[j].time
  }

  function Quota(limit: int): (m: int)
    ensures m >= 1 && m >= limit
  {
    if limit < 1 then 1 else limit
  }

  // ---- exactly when a request is denied ----

  /** The request that opened the window in force for the key, told from the requests: the first one, and after it each
      that comes more than a window after the one before, or finds that the map was dropped in between. */
  function Opener(p: Policy, rs: seq<Request>, key: string): (o: Option<nat>)
    ensures o.Some? ==> o.value < |rs| && rs[o.value].key == key
  {
    if rs == [] then None
    else
      var front, r := rs[..|rs| - 1], rs[|rs| - 1];
      var o := Opener(p, front, key);
      if r.key != key then (if VerdictAt(p, rs).cleared then None else o)
      else if o.None? || r.time > front[o.value].time + p.window then Some(|front|)
      else o
  }

  /** The requests of the key from the i-th request on, allowed or not. */
  function Asked(rs: seq<Request>, key: string, i: nat): nat {
    if |rs| <= i then 0 else Asked(rs[..|rs| - 1], key, i) + Bit(rs[|rs| - 1].key == key)
  }

  function AtMost(n: nat, m: int): int { if n <= m then n else m }

  /** The bucket of a key tells when its window was opened and how often it asked since, up to the limit. */
  predicate Tells(p: Policy, rs: seq<Request>, key: string, bs: Buckets) {
    var o := Opener(p, rs, key);
    && (key in bs <==> o.Some?)
    && (o.Some? ==> Asked(rs, key, o.value) >= 1)
    && (o.Some? ==> bs[key] == Bucket(AtMost(Asked(rs, key, o.value), Quota(p.limit)), rs[o.value].time + p.window))
  }

  lemma {:induction false} BucketTells(p: Policy, rs: seq<Request>, key: string)
    ensures Tells(p, rs, key, After(p, rs))
  {
    if rs != [] {
      var front := rs[..|rs| - 1];
      BucketTells(p, front, key);
      var o := Opener(p, front, key);
      if o.Some? { assert rs[o.value] == front[o.value]; }
      assert Asked(front, key, |front|) == 0;
    }
  }

  /** A request is denied exactly when it falls into a window the key opened and as many requests of the key as the
      limit allows came before it in that window; those denied count, but never move the end of the window. */
  lemma DeniedExactly(p: Policy, before: seq<Request>, r: Request)
    ensures var o := Opener(p, before, r.key);
      VerdictAt(p, before + [r]).allowed <==>
      !(o.Some? && r.time <= before[o.value].time + p.window && Asked(before, r.key, o.value) >= p.limit)
  {
    BucketTells(p, before, r.key);
    assert (before + [r])[..|before|] == before;
  }

  // ---- the bound ----

  /** The bucket in force, told by when it was opened relative to the interval. */
  predicate Charged(p: Policy, bs: Buckets, key: string, t: int, allowed: nat, clears: nat) {
    var m := Quota(p.limit);
    if key !in bs then allowed <= m - 1 + clears * m
    else
      && 1 <= bs[key].count <= m
      && if bs[key].reset - p.window < t
         then clears == 0 && allowed <= bs[key].count - 1
         else allowed <= m - 1 + clears * m + bs[key].count
  }

  lemma DecideKeepsCharge(p: Policy, bs: Buckets, key: string, t: int, allowed: nat, clears: nat, r: Request)
    requires Charged(p, bs, key, t, allowed, clears)
    requires r.time < t ==> allowed == 0 && clears == 0
    requires r.time <= t + p.window
    ensures var v := Decide(bs, p.limit, p.window, r.key, r.time);
      Charged(p, v.buckets, key, t,
              allowed + Bit(r.key == key && Within(p, t, r.time) && v.allowed),
              clears + Bit(Within(p, t, r.time) && v.cleared))
  {
    var m := Quota(p.limit);
    assert (clears + 1) * m == clears * m + m && clears * m >= 0;
  }

  lemma Appended(p: Policy, rs: seq<Request>, r: Request, key: string, t: int)
    ensures var v := Decide(After(p, rs), p.limit, p.window, r.key, r.time);
      && After(p, rs + [r]) == v.buckets
      && AllowedIn(p, rs + [r], key, t) ==
        AllowedIn(p, rs, key, t) + Bit(r.key == key && Within(p, t, r.time) && v.allowed)
      && ClearsIn(p, rs + [r], t) == ClearsIn(p, rs, t) + Bit(Within(p, t, r.time) && v.cleared)
  {
    assert (rs + [r])[..|rs|] == rs;
  }

  lemma HistoryStep(p: Policy, rs: seq<Request>, r: Request, key: string, t: int)
    requires Charged(p, After(p, rs), key, t, AllowedIn(p, rs, key, t), ClearsIn(p, rs, t))
    requires r.time < t ==> AllowedIn(p, rs, key, t) == 0 && ClearsIn(p, rs, t) == 0
    requires r.time <= t + p.window
    ensures Charged(p, After(p, rs + [r]), key, t, AllowedIn(p, rs + [r], key, t), ClearsIn(p, rs + [r], t))
    ensures r.time < t ==> AllowedIn(p, rs + [r], key, t) == 0 && ClearsIn(p, rs + [r], t) == 0
  {
    Appended(p, rs, r, key, t);
    DecideKeepsCharge(p, After(p, rs), key, t, AllowedIn(p, rs, key, t), ClearsIn(p, rs, t), r);
  }

  lemma {:induction false} HistoryIsCharged(p: Policy, rs: seq<Request>, key: string, t: int)
    requires Monotone(rs) && (rs != [] ==> rs[|rs| - 1].time <= t + p.window)
    ensures Charged(p, After(p, rs), key, t, AllowedIn(p, rs, key, t), ClearsIn(p, rs, t))
    ensures rs != [] && rs[|rs| - 1].time < t ==> AllowedIn(p, rs, key, t) == 0 && ClearsIn(p, rs, t) == 0
  {
    if rs != [] {
      var before := rs[..|rs| - 1];
      HistoryIsCharged(p, before, key, t);
      HistoryStep(p, before, rs[|rs| - 1], key, t);
      assert before + [rs[|rs| - 1]] == rs;
    }
  }

  /** With a clock that does not run backwards, a key is allowed at most (2 + c) * max(1, limit) - 1 requests in
      any closed interval one window long during which the map was dropped c times. */
  lemma {:induction false} AllowedIsBounded(p: Policy, rs: seq<Request>, key: string, t: int)
    requires Monotone(rs)
    ensures AllowedIn(p, rs, key, t) <= (2 + ClearsIn(p, rs, t)) * Quota(p.limit) - 1
  {
    if rs != [] && rs[|rs| - 1].time > t + p.window {
      AllowedIsBounded(p, rs[..|rs| - 1], key, t);
    } else {
      HistoryIsCharged(p, rs, key, t);
      ChargeBounds(p, After(p, rs), key, t, AllowedIn(p, rs, key, t), ClearsIn(p, rs, t));
    }
  }

  /** A key is owed at most the quota of each bucket it had, and one less than that of the first. */
  lemma ChargeBounds(p: Policy, bs: Buckets, key: string, t: int, allowed: nat, clears: nat)
    requires Charged(p, bs, key, t, allowed, clears)
    ensures allowed <= (2 + clears) * Quota(p.limit) - 1
  {
    TwoMore(clears, Quota(p.limit));
  }

  lemma TwoMore(c: nat, m: int)
    requires m >= 1
    ensures (2 + c) * m == 2 * m + c * m && c * m >= 0
  {
  }

  // ---- the bound is attained ----

  /** One key has asked so far, up to `last`; its bucket, and what was allowed since t. */
  predicate Stands(p: Policy, rs: seq<Request>, key: string, t: int, last: int, b: Bucket, allowed: nat) {
    && Monotone(rs) && (forall i :: 0 <= i < |rs| ==> rs[i].time <= last)
    && After(p, rs) == map[key := b]
    && AllowedIn(p, rs, key, t) == allowed && ClearsIn(p, rs, t) == 0
  }

  lemma OneBucket(key: string, b: Bucket)
    ensures |map[key := b]| == 1
  {
    assert map[key := b].Keys == {key};
  }

  /** A request that counts in the open bucket. */
  lemma Counts(p: Policy, rs: seq<Request>, key: string, t: int, last: int, b: Bucket, allowed: nat, time: int)
    returns (more: seq<Request>)
    requires Stands(p, rs, key, t, last, b, allowed) && last <= time <= b.reset && b.count < p.limit
    ensures Stands(p, more, key, t, time, Bucket(b.count + 1, b.reset), allowed + Bit(Within(p, t, time)))
  {
    more := rs + [Request(key, time)];
    Appended(p, rs, Request(key, time), key, t);
    assert map[key := b][key := Bucket(b.count + 1, b.reset)] == map[key := Bucket(b.count + 1, b.reset)];
  }

  /** A request after the bucket expired. */
  lemma Reopens(p: Policy, rs: seq<Request>, key: string, t: int, last: int, b: Bucket, allowed: nat, time: int)
    returns (more: seq<Request>)
    requires Stands(p, rs, key, t, last, b, allowed) && last <= time && b.reset < time
    ensures Stands(p, more, key, t, time, Bucket(1, time + p.window), allowed + Bit(Within(p, t, time)))
  {
    more := rs + [Request(key, time)];
    OneBucket(key, b);
    Appended(p, rs, Request(key, time), key, t);
    assert map[key := b][key := Bucket(1, time + p.window)] == map[key := Bucket(1, time + p.window)];
  }

  lemma FirstRequest(p: Policy, key: string, t: int, time: int)
    ensures Stands(p, [Request(key, time)], key, t, time, Bucket(1, time + p.window), Bit(Within(p, t, time)))
  {
    var none: seq<Request> := [];
    Appended(p, none, Request(key, time), key, t);
    assert none + [Request(key, time)] == [Request(key, time)];
  }

  /** n requests at one time inside the open bucket are all allowed. */
  lemma {:induction false} Burst(p: Policy, rs: seq<Request>, key: string, t: int, last: int, b: Bucket, allowed: nat,
                                 time: int, n: nat)
    returns (all: seq<Request>)
    requires Stands(p, rs, key, t, last, b, allowed)
    requires last <= time <= b.reset && b.count + n <= p.limit && Within(p, t, time)
    ensures Stands(p, all, key, t, time, Bucket(b.count + n, b.reset), allowed + n)
  {
    if n == 0 {
      all := rs;
    } else {
      all := Burst(p, rs, key, t, last, b, allowed, time, n - 1);
      all := Counts(p, all, key, t, time, Bucket(b.count + n - 1, b.reset), allowed + n - 1, time);
    }
  }

  /** A bucket opened at 0 and filled at its last moment, then a fresh one filled the moment after. */
  lemma Straddles(p: Policy, key: string) returns (rs: seq<Request>)
    requires p.limit >= 1 && p.window >= 1
    ensures Stands(p, rs, key, p.window, p.window + 1, Bucket(p.limit, 2 * p.window + 1), 2 * p.limit - 1)
  {
    var t, n := p.window, p.limit - 1;
    rs := FirstFull(p, key);
    rs := Reopens(p, rs, key, t, t, Bucket(1 + n, t), n, t + 1);
    rs := Burst(p, rs, key, t, t + 1, Bucket(1, t + 1 + t), n + 1, t + 1, n);
  }

  lemma FirstFull(p: Policy, key: string) returns (rs: seq<Request>)
    requires p.limit >= 1 && p.window >= 1
    ensures Stands(p, rs, key, p.window, p.window, Bucket(p.limit, p.window), p.limit - 1)
  {
    FirstRequest(p, key, p.window, 0);
    rs := Burst(p, [Request(key, 0)], key, p.window, 0, Bucket(1, p.window), 0, p.window, p.limit - 1);
  }

  // ---- with the map dropped ----

  /** Keys of every length. */
  function Name(n: nat): string { seq(n, i => 'a') }

  /** The key has a bucket among `size` buckets, every other key is shorter than `len`; what was allowed and how often
      the map was dropped since t. */
  ghost predicate Crowded(p: Policy, rs: seq<Request>, key: string, t: int, last: int, b: Bucket, allowed: nat,
                          clears: nat, size: nat, len: nat) {
    && Monotone(rs) && (forall i :: 0 <= i < |rs| ==> rs[i].time <= last)
    && key in After(p, rs) && After(p, rs)[key] == b && |After(p, rs)| == size
    && |key| < len && (forall other :: other in After(p, rs) ==> |other| < len)
    && AllowedIn(p, rs, key, t) == allowed && ClearsIn(p, rs, t) == clears
  }

  lemma OneMoreBucket(bs: Buckets, key: string, b: Bucket)
    requires key !in bs
    ensures |bs[key := b]| == |bs| + 1
  {
    assert bs[key := b].Keys == bs.Keys + {key};
  }

  lemma SameBuckets(bs: Buckets, key: string, b: Bucket)
    requires key in bs
    ensures |bs[key := b]| == |bs|
  {
    assert bs[key := b].Keys == bs.Keys;
  }

  /** Another key opens a bucket while there is room. */
  lemma Fills(p: Policy, rs: seq<Request>, key: string, t: int, last: int, b: Bucket, allowed: nat, clears: nat,
              size: nat, len: nat)
    returns (more: seq<Request>)
    requires Crowded(p, rs, key, t, last, b, allowed, clears, size, len) && size <= MAX_BUCKETS
    ensures Crowded(p, more, key, t, last, b, allowed, clears, size + 1, len + 1)
  {
    more := rs + [Request(Name(len), last)];
    assert |Name(len)| == len;
    Appended(p, rs, Request(Name(len), last), key, t);
    OneMoreBucket(After(p, rs), Name(len), Bucket(1, last + p.window));
  }

  lemma {:induction false} FillsAll(p: Policy, before: seq<Request>, key: string, t: int, last: int, b: Bucket,
                                    allowed: nat, clears: nat, size: nat, len: nat, n: nat)
    returns (rs: seq<Request>)
    requires Crowded(p, before, key, t, last, b, allowed, clears, size, len) && size + n <= MAX_BUCKETS + 1
    ensures Crowded(p, rs, key, t, last, b, allowed, clears, size + n, len + n)
    decreases n
  {
    if n == 0 {
      rs := before;
    } else {
      rs := FillsAll(p, before, key, t, last, b, allowed, clears, size, len, n - 1);
      rs := Fills(p, rs, key, t, last, b, allowed, clears, size + n - 1, len + n - 1);
    }
  }

  /** One key too many drops the map; the key asks again and gets a fresh bucket. */
  lemma Drops(p: Policy, rs: seq<Request>, key: string, t: int, last: int, b: Bucket, allowed: nat, clears: nat,
              len: nat)
    returns (more: seq<Request>)
    requires Crowded(p, rs, key, t, last, b, allowed, clears, MAX_BUCKETS + 1, len) && Within(p, t, last)
    ensures Crowded(p, more, key, t, last, Bucket(1, last + p.window), allowed + 1, clears + 1, 2, len + 1)
  {
    assert |Name(len)| == len;
    var newest := Bucket(1, last + p.window);
    Appended(p, rs, Request(Name(len), last), key, t);
    var dropped := rs + [Request(Name(len), last)];
    assert After(p, dropped) == map[Name(len) := newest];
    OneBucket(Name(len), newest);
    Appended(p, dropped, Request(key, last), key, t);
    OneMoreBucket(After(p, dropped), key, newest);
    more := dropped + [Request(key, last)];
  }

  lemma CountsOn(p: Policy, rs: seq<Request>, key: string, t: int, last: int, b: Bucket, allowed: nat, clears: nat,
                 size: nat, len: nat)
    returns (more: seq<Request>)
    requires Crowded(p, rs, key, t, last, b, allowed, clears, size, len)
    requires last <= b.reset && b.count < p.limit && Within(p, t, last)
    ensures Crowded(p, more, key, t, last, Bucket(b.count + 1, b.reset), allowed + 1, clears, size, len)
  {
    more := rs + [Request(key, last)];
    Appended(p, rs, Request(key, last), key, t);
    SameBuckets(After(p, rs), key, Bucket(b.count + 1, b.reset));
  }

  lemma {:induction false} CountsAll(p: Policy, before: seq<Request>, key: string, t: int, last: int, b: Bucket,
                                     allowed: nat, clears: nat, size: nat, len: nat, n: nat)
    returns (rs: seq<Request>)
    requires Crowded(p, before, key, t, last, b, allowed, clears, size, len)
    requires last <= b.reset && b.count + n <= p.limit && Within(p, t, last)
    ensures Crowded(p, rs, key, t, last, Bucket(b.count + n, b.reset), allowed + n, clears, size, len)
    decreases n
  {
    if n == 0 {
      rs := before;
    } else {
      rs := CountsAll(p, before, key, t, last, b, allowed, clears, size, len, n - 1);
      rs := CountsOn(p, rs, key, t, last, Bucket(b.count + n - 1, b.reset), allowed + n - 1, clears, size, len);
    }
  }

  /** One round: fill the map, drop it, fill the key's fresh bucket. */
  lemma Round(p: Policy, before: seq<Request>, key: string, t: int, last: int, b: Bucket, allowed: nat, clears: nat,
              size: nat, len: nat)
    returns (rs: seq<Request>)
    requires Crowded(p, before, key, t, last, b, allowed, clears, size, len)
    requires size <= 2 && p.limit >= 1 && p.window >= 1 && Within(p, t, last)
    ensures Crowded(p, rs, key, t, last, Bucket(p.limit, last + p.window), allowed + p.limit,
                clears + 1, 2, len + MAX_BUCKETS + 2 - size)
  {
    var n := MAX_BUCKETS + 1 - size;
    rs := FillsAndDrops(p, before, key, t, last, b, allowed, clears, size, len);
    rs := CountsAll(p, rs, key, t, last, Bucket(1, last + p.window), allowed + 1, clears + 1, 2, len + n + 1,
                    p.limit - 1);
  }

  lemma FillsAndDrops(p: Policy, before: seq<Request>, key: string, t: int, last: int, b: Bucket, allowed: nat,
                      clears: nat, size: nat, len: nat)
    returns (rs: seq<Request>)
    requires Crowded(p, before, key, t, last, b, allowed, clears, size, len) && size <= 2 && Within(p, t, last)
    ensures Crowded(p, rs, key, t, last, Bucket(1, last + p.window), allowed + 1,
                clears + 1, 2, len + MAX_BUCKETS + 2 - size)
  {
    var n := MAX_BUCKETS + 1 - size;
    rs := FillsAll(p, before, key, t, last, b, allowed, clears, size, len, n);
    rs := Drops(p, rs, key, t, last, b, allowed, clears, len + n);
  }

  lemma {:induction false} Rounds(p: Policy, key: string, c: nat)
    returns (rs: seq<Request>, b: Bucket, size: nat, len: nat)
    requires p.limit >= 1 && p.window >= 1
    ensures size <= 2 && Crowded(p, rs, key, p.window, p.window + 1, b, (2 + c) * p.limit - 1, c, size, len)
  {
    if c == 0 {
      rs := Straddles(p, key);
      b, size, len := Bucket(p.limit, 2 * p.window + 1), 1, |key| + 1;
      OneBucket(key, b);
    } else {
      rs, b, size, len := Rounds(p, key, c - 1);
      rs := Round(p, rs, key, p.window, p.window + 1, b, (1 + c) * p.limit - 1, c - 1, size, len);
      OneMoreQuota(c, p.limit);
      b, size, len := Bucket(p.limit, 2 * p.window + 1), 2, len + MAX_BUCKETS + 2 - size;
    }
  }

  lemma OneMoreQuota(c: nat, m: int)
    ensures (1 + c) * m - 1 + m == (2 + c) * m - 1
  {
  }

  /** The bound is attained, whatever the limit, the window, the key and the number of times the map is dropped. */
  lemma BoundIsTight(p: Policy, key: string, c: nat) returns (rs: seq<Request>)
    requires p.limit >= 1 && p.window >= 1
    ensures Monotone(rs) && ClearsIn(p, rs, p.window) == c
    ensures AllowedIn(p, rs, key, p.window) == (2 + c) * Quota(p.limit) - 1
  {
    var b, size, len;
    rs, b, size, len := Rounds(p, key, c);
  }
}
