/** The per-client token bucket and the Retry-After it advertises; time in nanoseconds, credit in exact reals. */
module RateLimiter {
  import opened Common

  type Client = nat

  const NO_CLIENT: Client := 0

  datatype Bucket = Bucket(tokens: real, last: int)

  /** Tokens per second, and how many a bucket holds. */
  datatype Limits = Limits(rate: real, burst: int)

  type Buckets = map<Client, Bucket>

  function Seconds(ns: int): real { ns as real / 1000000000.0 }

  /** A product of two unknowns, named so that it can be kept out of sight. */
  function Times(x: real, y: real): real { x * y }

  // ---------- one request ----------

  function Full(l: Limits, now: int): Bucket { Bucket(l.burst as real, now) }

  function BucketOf(l: Limits, m: Buckets, c: Client, now: int): Bucket {
    if c in m then m[c] else Full(l, now)
  }

  function Cap(x: real, burst: int): real { if x > burst as real then burst as real else x }

  /** A timestamp that is not later than the last refill changes nothing. */
  function Refilled(l: Limits, b: Bucket, now: int): Bucket {
    if now > b.last then Bucket(Cap(b.tokens + Times(Seconds(now - b.last), l.rate), l.burst), now) else b
  }

  predicate Granted(l: Limits, b: Bucket, now: int) { Refilled(l, b, now).tokens >= 1.0 }

  function Served(l: Limits, b: Bucket, now: int): Bucket {
    var r := Refilled(l, b, now);
    if r.tokens >= 1.0 then r.(tokens := r.tokens - 1.0) else r
  }

  /** The wait, in nanoseconds, advertised when the refilled bucket holds `tokens` < 1. */
  function Wait(l: Limits, tokens: real): int {
    if l.rate <= 0.0 then 1000000000 else ((1.0 - tokens) / l.rate * 1000000000.0).Floor
  }

  /** The Retry-After header, in whole seconds. */
  function RetryAfter(l: Limits, tokens: real): int {
    var secs := Wait(l, tokens) / 1000000000;
    if secs < 1 then 1 else secs
  }

  // ---------- the code ----------

  datatype Verdict = Pass | TooMany(retryAfter: int)

  class Limiter {
    const limits: Limits
    var buckets: Buckets

    constructor (rate: real, burst: int)
      ensures limits == Limits(rate, burst) && buckets == map[]
    {
      limits := Limits(rate, burst);
      buckets := map[];
    }

    /** One call under the lock; `now` was read before the lock was taken. */
    method Allow(c: Client, now: int) returns (ok: bool, wait: int)
      modifies this`buckets
      ensures var b := BucketOf(limits, old(buckets), c, now);
              && ok == Granted(limits, b, now) && buckets == old(buckets)[c := Served(limits, b, now)]
              && wait == if ok then 0 else Wait(limits, Refilled(limits, b, now).tokens)
    {
      var b := if c in buckets then buckets[c] else Bucket(limits.burst as real, now);
      var elapsed := now - b.last;
      if elapsed > 0 {
        var tokens := b.tokens + Seconds(elapsed) * limits.rate;
        if tokens > limits.burst as real {
          tokens := limits.burst as real;
        }
        b := Bucket(tokens, now);
      }
      if b.tokens >= 1.0 {
        buckets := buckets[c := b.(tokens := b.tokens - 1.0)];
        return true, 0;
      }
      buckets := buckets[c := b];
      if limits.rate <= 0.0 {
        return false, 1000000000;
      }
      return false, ((1.0 - b.tokens) / limits.rate * 1000000000.0).Floor;
    }

    /** /events and requests without a client are not limited. */
    method Middleware(events: bool, c: Client, now: int) returns (v: Verdict)
      modifies this`buckets
      ensures events || c == NO_CLIENT ==> v == Pass && buckets == old(buckets)
      ensures !events && c != NO_CLIENT ==>
                var b := BucketOf(limits, old(buckets), c, now);
                && buckets == old(buckets)[c := Served(limits, b, now)]
                && v == if Granted(limits, b, now) then Pass
                        else TooMany(RetryAfter(limits, Refilled(limits, b, now).tokens))
    {
      if events || c == NO_CLIENT {
        return Pass;
      }
      var ok, retryAfter := Allow(c, now);
      if !ok {
        var secs := retryAfter / 1000000000;
        if secs < 1 {
          secs := 1;
        }
        return TooMany(secs);
      }
      return Pass;
    }
  }

  // ---------- many requests ----------

  datatype Request = Request(client: Client, now: int)

  /** The buckets before request n; the requests are in the order in which they take the lock. */
  function BucketsAt(l: Limits, rs: seq<Request>, n: nat): Buckets
    requires n <= |rs|
  {
    if n == 0 then map[]
    else
      var m, r := BucketsAt(l, rs, n - 1), rs[n - 1];
      m[r.client := Served(l, BucketOf(l, m, r.client, r.now), r.now)]
  }

  predicate Allowed(l: Limits, rs: seq<Request>, k: nat)
    requires k < |rs|
  {
    Granted(l, BucketOf(l, BucketsAt(l, rs, k), rs[k].client, rs[k].now), rs[k].now)
  }

  /** The bucket as request k finds it, refilled. */
  function FoundBy(l: Limits, rs: seq<Request>, k: nat): Bucket
    requires k < |rs|
  {
    Refilled(l, BucketOf(l, BucketsAt(l, rs, k), rs[k].client, rs[k].now), rs[k].now)
  }

  /** How many of the requests i .. j - 1 of client c are allowed. */
  function AllowedCount(l: Limits, rs: seq<Request>, c: Client, i: nat, j: nat): nat
    requires j <= |rs|
  {
    if j <= i then 0
    else AllowedCount(l, rs, c, i, j - 1) + (if rs[j - 1].client == c && Allowed(l, rs, j - 1) then 1 else 0)
  }

  /** Time only ever reaches the bucket as a maximum. */
  function LatestOf(rs: seq<Request>, c: Client, n: nat): Option<int>
    requires n <= |rs|
  {
    if n == 0 then None
    else
      var before := LatestOf(rs, c, n - 1);
      if rs[n - 1].client != c then before
      else if before.Some? && before.value >= rs[n - 1].now then before else Some(rs[n - 1].now)
  }

  lemma {:induction false} LatestIs(rs: seq<Request>, c: Client, n: nat)
    requires n <= |rs|
    ensures LatestOf(rs, c, n).None? <==> forall i :: 0 <= i < n ==> rs[i].client != c
    ensures LatestOf(rs, c, n).Some? ==>
              && (exists i :: 0 <= i < n && rs[i] == Request(c, LatestOf(rs, c, n).value))
              && forall i :: 0 <= i < n && rs[i].client == c ==> rs[i].now <= LatestOf(rs, c, n).value
  {
    if n > 0 {
      LatestIs(rs, c, n - 1);
    }
  }

  lemma {:induction false} LatestGrows(rs: seq<Request>, c: Client, m: nat, n: nat)
    requires m <= n <= |rs| && LatestOf(rs, c, m).Some?
    ensures LatestOf(rs, c, n).Some? && LatestOf(rs, c, m).value <= LatestOf(rs, c, n).value
    decreases n
  {
    if m < n {
      LatestGrows(rs, c, m, n - 1);
    }
  }

  lemma {:induction false} ClockIsLatest(l: Limits, rs: seq<Request>, c: Client, n: nat)
    requires n <= |rs|
    ensures c in BucketsAt(l, rs, n) <==> LatestOf(rs, c, n).Some?
    ensures c in BucketsAt(l, rs, n) ==> BucketsAt(l, rs, n)[c].last == LatestOf(rs, c, n).value
    ensures c in BucketsAt(l, rs, n) ==> BucketsAt(l, rs, n)[c].tokens <= l.burst as real
  {
    if n > 0 {
      ClockIsLatest(l, rs, c, n - 1);
    }
  }

  function Positive(x: real): real { if x > 0.0 then x else 0.0 }

  lemma TimesGrows(x: real, y: real, rate: real)
    requires x <= y && rate >= 0.0
    ensures Times(x, rate) <= Times(y, rate)
  {
    assert (y - x) * rate >= 0.0;
  }

  lemma TimesNone(rate: real)
    ensures Times(0.0, rate) == 0.0 && Times(1.0, rate) == rate
  {}

  lemma TimesAdds(x: real, y: real, rate: real)
    ensures Times(x + y, rate) == Times(x, rate) + Times(y, rate)
  {}

  lemma TimesDown(x: real, rate: real)
    requires x >= 0.0 && rate <= 0.0
    ensures Times(x, rate) <= 0.0
  {}

  lemma TimesPositive(x: real, rate: real)
    requires x >= 0.0
    ensures Times(x, rate) <= Times(x, Positive(rate)) && Times(x, Positive(rate)) >= 0.0
  {
    TimesNone(Positive(rate));
    TimesGrows(0.0, x, Positive(rate));
    if rate <= 0.0 {
      TimesDown(x, rate);
    }
    hide Times;
  }

  lemma RefillBound(l: Limits, b: Bucket, now: int)
    ensures var r := Refilled(l, b, now);
            && r.last >= b.last
            && Positive(r.tokens) <= Positive(b.tokens) + Times(Seconds(r.last - b.last), Positive(l.rate))
  {
    hide Times;
    if now > b.last {
      TimesPositive(Seconds(now - b.last), l.rate);
    } else {
      TimesNone(Positive(l.rate));
    }
  }

  lemma Spread(rate: real, a: int, b: int, c: int)
    ensures Times(Seconds(c - a), rate) == Times(Seconds(b - a), rate) + Times(Seconds(c - b), rate)
  {
    assert Seconds(c - a) == Seconds(b - a) + Seconds(c - b);
    TimesAdds(Seconds(b - a), Seconds(c - b), rate);
    hide Times;
  }

  lemma ServedBound(l: Limits, b: Bucket, now: int)
    ensures var s := Served(l, b, now);
            && s.last >= b.last
            && Positive(s.tokens) + (if Granted(l, b, now) then 1.0 else 0.0)
               <= Positive(b.tokens) + Times(Seconds(s.last - b.last), Positive(l.rate))
  {
    RefillBound(l, b, now);
    hide Times, Refilled, Seconds;
  }

  /** The first request of the window starts from at most a full bucket. */
  lemma FirstBound(l: Limits, b: Bucket, now: int)
    requires b.tokens <= l.burst as real
    ensures var s := Served(l, b, now);
            Positive(s.tokens) + (if Granted(l, b, now) then 1.0 else 0.0) <= Positive(l.burst as real)
  {
    hide Times;
  }

  /** burst + rate * elapsed seconds; a negative burst or rate counts as 0. */
  function Budget(l: Limits, first: int, last: int): real {
    Positive(l.burst as real) + Times(Seconds(last - first), Positive(l.rate))
  }

  /** What a window may have allowed when the refill clock went from `first` to `last` and `left` is in the bucket. */
  predicate Within(l: Limits, allowed: nat, left: real, first: int, last: int) {
    first <= last && allowed as real + Positive(left) <= Budget(l, first, last)
  }

  lemma WithinStep(l: Limits, allowed: nat, first: int, b: Bucket, now: int)
    requires Within(l, allowed, b.tokens, first, b.last)
    ensures var s := Served(l, b, now);
            Within(l, allowed + (if Granted(l, b, now) then 1 else 0), s.tokens, first, s.last)
  {
    ServedBound(l, b, now);
    Spread(Positive(l.rate), first, b.last, Served(l, b, now).last);
    hide Served, Granted, Positive, Seconds, Times;
  }

  lemma WithinFirst(l: Limits, b: Bucket, now: int)
    requires b.tokens <= l.burst as real
    ensures var s := Served(l, b, now);
            Within(l, if Granted(l, b, now) then 1 else 0, s.tokens, s.last, s.last)
  {
    FirstBound(l, b, now);
    assert Seconds(0) == 0.0;
    TimesNone(Positive(l.rate));
    hide Times, Served, Granted, Seconds;
  }

  lemma {:induction false} WindowInvariant(l: Limits, rs: seq<Request>, c: Client, i: nat, j: nat)
    requires i < j <= |rs| && rs[i].client == c
    ensures c in BucketsAt(l, rs, i + 1) && c in BucketsAt(l, rs, j)
    ensures var first, now := BucketsAt(l, rs, i + 1)[c], BucketsAt(l, rs, j)[c];
            Within(l, AllowedCount(l, rs, c, i, j), now.tokens, first.last, now.last)
    decreases j
  {
    hide Within, Served, Granted;
    if j == i + 1 {
      ClockIsLatest(l, rs, c, i);
      WithinFirst(l, BucketOf(l, BucketsAt(l, rs, i), c, rs[i].now), rs[i].now);
      assert AllowedCount(l, rs, c, i, i) == 0;
    } else {
      WindowInvariant(l, rs, c, i, j - 1);
      if rs[j - 1].client == c {
        var first, b := BucketsAt(l, rs, i + 1)[c], BucketsAt(l, rs, j - 1)[c];
        WithinStep(l, AllowedCount(l, rs, c, i, j - 1), first.last, b, rs[j - 1].now);
      }
    }
  }

  lemma WithinMeans(l: Limits, allowed: nat, left: real, first: int, last: int)
    requires Within(l, allowed, left, first, last)
    ensures allowed as real <= Budget(l, first, last)
  {
    hide Budget;
  }

  /** THE RATE BOUND. In every window of a client's requests, however their timestamps are ordered, at most
      burst + rate * (latest - earliest refill time) are allowed. */
  lemma WindowBound(l: Limits, rs: seq<Request>, c: Client, i: nat, j: nat)
    requires i < j <= |rs| && rs[i].client == c
    ensures LatestOf(rs, c, i + 1).Some? && LatestOf(rs, c, j).Some?
    ensures var earliest, latest := RefillTime(rs, i), LatestOf(rs, c, j).value;
            AllowedCount(l, rs, c, i, j) as real <= Budget(l, earliest, latest)
  {
    WindowInvariant(l, rs, c, i, j);
    ClockIsLatest(l, rs, c, i + 1);
    ClockIsLatest(l, rs, c, j);
    hide BucketsAt, AllowedCount, LatestOf, Within, Budget;
    WithinMeans(l, AllowedCount(l, rs, c, i, j), BucketsAt(l, rs, j)[c].tokens, BucketsAt(l, rs, i + 1)[c].last,
                BucketsAt(l, rs, j)[c].last);
  }

  // ---------- exactly when a request is allowed ----------

  /** What a full bucket at `first` has to give by `last`, if nothing overflows. */
  function Allowance(l: Limits, first: int, last: int): real {
    l.burst as real + Times(Seconds(last - first), l.rate)
  }

  /** The refill time of its client's bucket after request i. */
  function RefillTime(rs: seq<Request>, i: nat): int
    requires i < |rs|
  {
    LatestOf(rs, rs[i].client, i + 1).value
  }

  /** Counting from any earlier request of c on, up to request n, `more` is left of the allowance at refill time `now`. */
  ghost predicate LeftFromAll(l: Limits, rs: seq<Request>, c: Client, n: nat, now: int, more: real)
    requires n <= |rs|
  {
    forall i :: 0 <= i < n && rs[i].client == c ==>
      AllowedCount(l, rs, c, i, n) as real + more <= Allowance(l, RefillTime(rs, i), now)
  }

  /** The allowance of n requests at a later refill time, or of one request more. */
  lemma LeftLater(l: Limits, rs: seq<Request>, c: Client, n: nat, now: int, later: int, more: real)
    requires n <= |rs|
    ensures LeftFromAll(l, rs, c, n, later, more) <==>
            LeftFromAll(l, rs, c, n, now, more - Times(Seconds(later - now), l.rate))
  {
    hide Times, Seconds, AllowedCount, RefillTime;
    forall i | 0 <= i < n && rs[i].client == c
      ensures Allowance(l, RefillTime(rs, i), later)
              == Allowance(l, RefillTime(rs, i), now) + Times(Seconds(later - now), l.rate)
    {
      Spread(l.rate, RefillTime(rs, i), now, later);
    }
    hide Allowance;
  }

  lemma LeftNext(l: Limits, rs: seq<Request>, c: Client, n: nat, now: int, more: real)
    requires n < |rs| && rs[n].client == c && LatestOf(rs, c, n + 1) == Some(now)
    ensures var a := if Allowed(l, rs, n) then 1.0 else 0.0;
            LeftFromAll(l, rs, c, n + 1, now, more) <==>
            LeftFromAll(l, rs, c, n, now, more + a) && a + more <= l.burst as real
  {
    hide LatestOf, Allowed;
    assert AllowedCount(l, rs, c, n, n + 1) == AllowedCount(l, rs, c, n, n) + if Allowed(l, rs, n) then 1 else 0;
    assert AllowedCount(l, rs, c, n, n) == 0;
    assert Allowance(l, now, now) == l.burst as real by {
      assert Seconds(0) == 0.0;
      TimesNone(l.rate);
      hide Times, Seconds;
    }
    forall i | 0 <= i < n && rs[i].client == c
      ensures AllowedCount(l, rs, c, i, n + 1)
              == AllowedCount(l, rs, c, i, n) + if Allowed(l, rs, n) then 1 else 0
    {}
    hide AllowedCount, Allowance;
    if LeftFromAll(l, rs, c, n + 1, now, more) {
      assert AllowedCount(l, rs, c, n, n + 1) as real + more <= Allowance(l, now, now);
    }
  }

  lemma LeftSame(l: Limits, rs: seq<Request>, c: Client, n: nat, now: int, more: real)
    requires 0 < n <= |rs| && rs[n - 1].client != c
    ensures LeftFromAll(l, rs, c, n, now, more) <==> LeftFromAll(l, rs, c, n - 1, now, more)
  {
    hide LatestOf, Allowed, Allowance;
    forall i | 0 <= i < n - 1
      ensures AllowedCount(l, rs, c, i, n) == AllowedCount(l, rs, c, i, n - 1)
    {}
    hide AllowedCount;
  }

  /** A bucket refilled at `now` holds at least x. */
  lemma RefilledHolds(l: Limits, b: Bucket, now: int, x: real)
    requires b.tokens <= l.burst as real
    ensures var r := Refilled(l, b, now);
            r.tokens >= x <==> x <= l.burst as real && b.tokens >= x - Times(Seconds(r.last - b.last), l.rate)
  {
    assert Seconds(0) == 0.0;
    TimesNone(l.rate);
    hide Times, Seconds;
  }

  /** THE BUCKET IS A SLIDING WINDOW: after n requests it holds at least x exactly when, counted from each request of the
      client on, x is left of the allowance. */
  lemma {:induction false} HoldsIff(l: Limits, rs: seq<Request>, c: Client, n: nat, x: real)
    requires n <= |rs| && c in BucketsAt(l, rs, n)
    ensures var b := BucketsAt(l, rs, n)[c];
            b.tokens >= x <==> LeftFromAll(l, rs, c, n, b.last, x)
    decreases n, 0
  {
    hide Served, Refilled, LeftFromAll, LatestOf;
    ClockIsLatest(l, rs, c, n);
    if rs[n - 1].client != c {
      HoldsIff(l, rs, c, n - 1, x);
      LeftSame(l, rs, c, n, BucketsAt(l, rs, n)[c].last, x);
    } else {
      RefilledIff(l, rs, n - 1, x + if Allowed(l, rs, n - 1) then 1.0 else 0.0);
      ServedTokens(l, BucketOf(l, BucketsAt(l, rs, n - 1), c, rs[n - 1].now), rs[n - 1].now);
      LeftNext(l, rs, c, n - 1, BucketsAt(l, rs, n)[c].last, x);
    }
  }

  lemma ServedTokens(l: Limits, b: Bucket, now: int)
    ensures var r, s := Refilled(l, b, now), Served(l, b, now);
            s == Bucket(r.tokens - (if Granted(l, b, now) then 1.0 else 0.0), r.last)
  {
    hide Refilled;
  }

  /** What request n finds. */
  lemma {:induction false} RefilledIff(l: Limits, rs: seq<Request>, n: nat, x: real)
    requires n < |rs|
    ensures var r := FoundBy(l, rs, n);
            && LatestOf(rs, rs[n].client, n + 1) == Some(r.last)
            && (r.tokens >= x <==> x <= l.burst as real && LeftFromAll(l, rs, rs[n].client, n, r.last, x))
    decreases n, 1
  {
    var c, m := rs[n].client, BucketsAt(l, rs, n);
    var b, r := BucketOf(l, m, c, rs[n].now), FoundBy(l, rs, n);
    ClockIsLatest(l, rs, c, n);
    ClockIsLatest(l, rs, c, n + 1);
    ServedTokens(l, b, rs[n].now);
    RefilledHolds(l, b, rs[n].now, x);
    hide Refilled, Served, LatestOf;
    if c in m {
      HoldsIff(l, rs, c, n, x - Times(Seconds(r.last - b.last), l.rate));
      LeftLater(l, rs, c, n, b.last, r.last, x);
    } else {
      LatestIs(rs, c, n);
      assert Seconds(0) == 0.0;
      TimesNone(l.rate);
    }
    hide Times, Seconds;
  }

  /** EXACTLY WHEN A REQUEST IS ALLOWED. For every limiter and run: request n is allowed exactly when, from each request i of
      the client up to n itself on, at least one is left of burst + rate * (time since i) after the ones allowed in
      between. So a refusal needs a window that is used up. */
  lemma AllowedIff(l: Limits, rs: seq<Request>, n: nat)
    requires n < |rs|
    ensures var c := rs[n].client;
            Allowed(l, rs, n) <==>
            forall i :: 0 <= i <= n && rs[i].client == c ==>
              AllowedCount(l, rs, c, i, n) as real + 1.0 <= Allowance(l, RefillTime(rs, i), RefillTime(rs, n))
  {
    var c, now := rs[n].client, FoundBy(l, rs, n).last;
    RefilledIff(l, rs, n, 1.0);
    assert Allowance(l, now, now) == l.burst as real by {
      assert Seconds(0) == 0.0;
      TimesNone(l.rate);
    }
    assert AllowedCount(l, rs, c, n, n) == 0;
    hide Refilled, LatestOf, BucketsAt, AllowedCount, Times, Seconds, Allowance;
    if forall i :: 0 <= i <= n && rs[i].client == c ==>
         AllowedCount(l, rs, c, i, n) as real + 1.0 <= Allowance(l, RefillTime(rs, i), now)
    {
      assert AllowedCount(l, rs, c, n, n) as real + 1.0 <= Allowance(l, RefillTime(rs, n), now);
    }
  }

  lemma {:induction false} CountSplits(l: Limits, rs: seq<Request>, c: Client, i: nat, j: nat, k: nat)
    requires i <= j <= k <= |rs|
    ensures AllowedCount(l, rs, c, i, k) == AllowedCount(l, rs, c, i, j) + AllowedCount(l, rs, c, j, k)
    decreases k
  {
    hide Allowed;
    if j < k {
      CountSplits(l, rs, c, i, j, k - 1);
    }
  }

  /** Request j finds its client new, or rested for as long as the burst takes to come back. */
  predicate Rested(l: Limits, rs: seq<Request>, j: nat)
    requires j < |rs|
  {
    var before := LatestOf(rs, rs[j].client, j);
    before.Some? ==> Times(Seconds(RefillTime(rs, j) - before.value), l.rate) >= l.burst as real
  }

  /** A RESTED CLIENT GETS ITS WHOLE BURST: from such a request on, at whatever times they come, requests are allowed until
      the burst is used up. */
  lemma BurstAfterRest(l: Limits, rs: seq<Request>, j: nat, k: nat)
    requires l.rate >= 0.0 && j <= k < |rs| && rs[k].client == rs[j].client && Rested(l, rs, j)
    requires AllowedCount(l, rs, rs[j].client, j, k) < l.burst
    ensures Allowed(l, rs, k)
  {
    hide Allowed, AllowedCount, Times, Seconds, LatestOf, Rested, Allowance;
    var c := rs[j].client;
    AllowedIff(l, rs, k);
    forall i | 0 <= i <= k && rs[i].client == c
      ensures AllowedCount(l, rs, c, i, k) as real + 1.0 <= Allowance(l, RefillTime(rs, i), RefillTime(rs, k))
    {
      if i < j {
        BeforeTheRest(l, rs, i, j, k);
      } else {
        CountSplits(l, rs, c, j, i, k);
        RefillTimesGrow(rs, i, k);
        AllowanceGrows(l, RefillTime(rs, i), RefillTime(rs, i), RefillTime(rs, k));
      }
    }
  }

  lemma RefillTimesGrow(rs: seq<Request>, i: nat, k: nat)
    requires i <= k < |rs| && rs[i].client == rs[k].client
    ensures LatestOf(rs, rs[i].client, i + 1).Some? && RefillTime(rs, i) <= RefillTime(rs, k)
  {
    LatestGrows(rs, rs[i].client, i + 1, k + 1);
  }

  lemma AllowanceGrows(l: Limits, first: int, a: int, b: int)
    requires l.rate >= 0.0 && a <= b
    ensures Allowance(l, first, a) <= Allowance(l, first, b) && Allowance(l, first, first) == l.burst as real
  {
    assert Seconds(0) == 0.0;
    TimesNone(l.rate);
    TimesGrows(Seconds(a - first), Seconds(b - first), l.rate);
    hide Times;
  }

  lemma BeforeTheRest(l: Limits, rs: seq<Request>, i: nat, j: nat, k: nat)
    requires l.rate >= 0.0 && i < j <= k < |rs| && rs[i].client == rs[k].client == rs[j].client && Rested(l, rs, j)
    requires AllowedCount(l, rs, rs[j].client, j, k) < l.burst
    ensures AllowedCount(l, rs, rs[j].client, i, k) as real + 1.0 <= Allowance(l, RefillTime(rs, i), RefillTime(rs, k))
  {
    hide AllowedCount, LatestOf, Times, Seconds, Allowance, RefillTime;
    var c := rs[j].client;
    UpToTheRest(l, rs, i, j);
    CountSplits(l, rs, c, i, j, k);
    RefillTimesGrow(rs, j, k);
    AllowanceGrows(l, RefillTime(rs, i), RefillTime(rs, j), RefillTime(rs, k));
  }

  /** The rest makes up for whatever was allowed before it. */
  lemma UpToTheRest(l: Limits, rs: seq<Request>, i: nat, j: nat)
    requires l.rate >= 0.0 && l.burst > 0 && i < j < |rs| && rs[i].client == rs[j].client && Rested(l, rs, j)
    ensures AllowedCount(l, rs, rs[j].client, i, j) as real + l.burst as real
            <= Allowance(l, RefillTime(rs, i), RefillTime(rs, j))
  {
    hide AllowedCount, LatestOf, Times, Seconds;
    var c := rs[j].client;
    WindowBound(l, rs, c, i, j);
    Spread(l.rate, RefillTime(rs, i), LatestOf(rs, c, j).value, RefillTime(rs, j));
    hide RefillTime;
  }

  // ---------- Retry-After ----------

  lemma FloorTwice(x: real)
    requires x >= 0.0
    ensures (x * 1000000000.0).Floor / 1000000000 == x.Floor
  {
    var n, w := x.Floor, (x * 1000000000.0).Floor;
    assert n as real * 1000000000.0 <= x * 1000000000.0 < (n as real + 1.0) * 1000000000.0;
    assert n * 1000000000 <= w < (n + 1) * 1000000000;
  }

  predicate Whole(x: real) { x == x.Floor as real }

  /** The next request comes exactly as many seconds later as the header says, or later still. */
  predicate Suffices(l: Limits, tokens: real) {
    Granted(l, Bucket(tokens, 0), RetryAfter(l, tokens) * 1000000000)
  }

  lemma LaterIsNoWorse(l: Limits, b: Bucket, now: int, later: int)
    requires Granted(l, b, now) && b.last <= now <= later && l.rate >= 0.0 && b.tokens <= l.burst as real
    ensures Granted(l, b, later)
  {
    TimesNone(l.rate);
    TimesGrows(0.0, Seconds(later - b.last), l.rate);
    TimesGrows(Seconds(now - b.last), Seconds(later - b.last), l.rate);
    hide Times, Seconds;
  }

  lemma SufficesAnyTime(l: Limits, b: Bucket)
    ensures Suffices(l, b.tokens) <==> Granted(l, b, b.last + RetryAfter(l, b.tokens) * 1000000000)
  {
    var secs := RetryAfter(l, b.tokens);
    assert secs >= 1;
  }

  lemma RetryAfterIs(l: Limits, tokens: real)
    requires tokens < 1.0
    ensures l.rate > 0.0 ==>
              var need := (1.0 - tokens) / l.rate;
              need > 0.0 && RetryAfter(l, tokens) == if need < 1.0 then 1 else need.Floor
    ensures l.rate <= 0.0 ==> RetryAfter(l, tokens) == 1
  {
    if l.rate > 0.0 {
      var need := (1.0 - tokens) / l.rate;
      Quotient(1.0 - tokens, l.rate);
      FloorTwice(need);
    }
  }

  lemma Quotient(a: real, b: real)
    requires a > 0.0 && b > 0.0
    ensures a / b > 0.0 && Times(a / b, b) == a
  {}

  lemma GrantedAfter(l: Limits, tokens: real, secs: int)
    requires tokens < 1.0 && secs >= 1
    ensures Granted(l, Bucket(tokens, 0), secs * 1000000000) <==>
            l.burst >= 1 && tokens + Times(secs as real, l.rate) >= 1.0
  {
    assert Seconds(secs * 1000000000) == secs as real;
    hide Times;
  }

  lemma ScaleBack(x: real, y: real, rate: real)
    requires rate > 0.0
    ensures Times(x, rate) >= Times(y, rate) <==> x >= y
  {
    if x >= y {
      assert (x - y) * rate >= 0.0;
    } else {
      assert (y - x) * rate > 0.0;
    }
  }

  /** WHEN THE ADVERTISED WAIT IS ENOUGH: exactly when the missing credit takes at most a second, or a whole number of
      seconds, to come back. The header is rounded down. */
  lemma SufficesIff(l: Limits, tokens: real)
    requires tokens < 1.0
    ensures Suffices(l, tokens) <==>
            l.burst >= 1 && l.rate > 0.0 && (1.0 - tokens <= l.rate || Whole((1.0 - tokens) / l.rate))
  {
    hide Times;
    var secs := RetryAfter(l, tokens);
    GrantedAfter(l, tokens, secs);
    if l.rate > 0.0 {
      var need := (1.0 - tokens) / l.rate;
      Quotient(1.0 - tokens, l.rate);
      RetryAfterIs(l, tokens);
      hide Granted, RetryAfter, Whole;
      RoundedDown(need, secs);
      Scaled(tokens, l.rate, need, secs as real);
    } else {
      TimesDown(secs as real, l.rate);
    }
  }

  /** Credit and time, said the other way round. */
  lemma Scaled(tokens: real, rate: real, need: real, secs: real)
    requires rate > 0.0 && Times(need, rate) == 1.0 - tokens
    ensures tokens + Times(secs, rate) >= 1.0 <==> secs >= need
    ensures 1.0 - tokens <= rate <==> need <= 1.0
  {
    ScaleBack(secs, need, rate);
    ScaleBack(1.0, need, rate);
    TimesNone(rate);
    hide Times;
  }

  lemma RoundedDown(need: real, secs: int)
    requires need > 0.0 && secs == if need < 1.0 then 1 else need.Floor
    ensures secs as real >= need <==> need <= 1.0 || Whole(need)
  {}

  /** With a rate of 0.4 and a burst of 1: a second request at once is told to wait 2 seconds, and refused again then. */
  lemma TooShortRun()
    ensures var l, rs := Limits(0.4, 1), [Request(1, 0), Request(1, 0), Request(1, 2000000000)];
            && Allowed(l, rs, 0) && !Allowed(l, rs, 1) && !Allowed(l, rs, 2)
            && RetryAfter(l, Refilled(l, BucketsAt(l, rs, 1)[1], 0).tokens) == 2
  {
    var l, rs := Limits(0.4, 1), [Request(1, 0), Request(1, 0), Request(1, 2000000000)];
    assert BucketsAt(l, rs, 0) == map[];
    assert BucketsAt(l, rs, 1) == map[1 := Bucket(0.0, 0)];
    assert BucketsAt(l, rs, 2) == map[1 := Bucket(0.0, 0)];
    RetryAfterIs(l, 0.0);
    assert 2.5.Floor == 2;
  }

  lemma {:induction false} TokensStayPositive(l: Limits, rs: seq<Request>, c: Client, n: nat)
    requires n <= |rs| && l.rate >= 0.0 && l.burst >= 0 && c in BucketsAt(l, rs, n)
    ensures 0.0 <= BucketsAt(l, rs, n)[c].tokens
  {
    hide Times;
    var m, r := BucketsAt(l, rs, n - 1), rs[n - 1];
    if r.client != c || c in m {
      TokensStayPositive(l, rs, c, n - 1);
    }
    if r.client == c {
      var b := BucketOf(l, m, c, r.now);
      if r.now > b.last {
        TimesNone(l.rate);
        TimesGrows(0.0, Seconds(r.now - b.last), l.rate);
      }
    }
  }

  /** Request k of a client is refused, having reached the lock in time order, and the client's next request n carries a
      time at least Retry-After seconds later. */
  ghost predicate Retries(l: Limits, rs: seq<Request>, k: nat, n: nat) {
    && k < n < |rs| && rs[n].client == rs[k].client && !Allowed(l, rs, k)
    && (forall i :: k < i < n ==> rs[i].client != rs[k].client)
    && (LatestOf(rs, rs[k].client, k).Some? ==> LatestOf(rs, rs[k].client, k).value <= rs[k].now)
    && rs[n].now >= rs[k].now + RetryAfter(l, FoundBy(l, rs, k).tokens) * 1000000000
  }

  /** RETRY-AFTER KEEPS ITS PROMISE with a rate and burst of at least 1: whoever waits that long is allowed. */
  lemma RetryIsAllowed(l: Limits, rs: seq<Request>, k: nat, n: nat)
    requires l.rate >= 1.0 && l.burst >= 1 && Retries(l, rs, k, n)
    ensures Allowed(l, rs, n)
  {
    var c, b := rs[k].client, FoundBy(l, rs, k);
    ClockIsLatest(l, rs, c, k);
    assert b.last == rs[k].now && b.tokens < 1.0;
    assert BucketsAt(l, rs, k + 1)[c] == b;
    Untouched(l, rs, c, k + 1, n);
    TokensStayPositive(l, rs, c, k + 1);
    SufficesIff(l, b.tokens);
    SufficesAnyTime(l, b);
    ClockIsLatest(l, rs, c, k + 1);
    LaterIsNoWorse(l, b, b.last + RetryAfter(l, b.tokens) * 1000000000, rs[n].now);
  }

  /** No run in which waiting as told is not enough. */
  ghost predicate Trusted(l: Limits) {
    forall rs: seq<Request>, k: nat, n: nat :: Retries(l, rs, k, n) ==> Allowed(l, rs, n)
  }

  /** WHICH LIMITERS MAY BE TRUSTED: whoever waits as told is allowed in every run, exactly when the rate is at least one
      token a second and the burst at least one token. */
  lemma AlwaysSufficesIff(l: Limits)
    ensures Trusted(l) <==> l.rate >= 1.0 && l.burst >= 1
  {
    if l.rate >= 1.0 && l.burst >= 1 {
      forall rs: seq<Request>, k: nat, n: nat | Retries(l, rs, k, n)
        ensures Allowed(l, rs, n)
      {
        RetryIsAllowed(l, rs, k, n);
      }
    } else {
      var rs, k := RefusedAgain(l);
      assert Retries(l, rs, k, k + 1) && !Allowed(l, rs, k + 1);
    }
  }

  // ---------- a limiter that refuses again ----------

  /** Requests at time 0 until the burst is used up, one that is refused at time t, and one as much later as it is told. */
  function Drained(l: Limits): nat { if l.burst > 0 then l.burst else 0 }

  function LeftOver(l: Limits): Bucket { Bucket(if l.burst > 0 then 0.0 else l.burst as real, 0) }

  function RunAt(l: Limits, t: nat): seq<Request> {
    seq(Drained(l), _ => Request(1, 0))
      + [Request(1, t), Request(1, t + RetryAfter(l, Refilled(l, LeftOver(l), t).tokens) * 1000000000)]
  }

  lemma {:induction false} Draining(l: Limits, rs: seq<Request>, n: nat)
    requires n <= Drained(l) && n <= |rs| && forall i :: 0 <= i < n ==> rs[i] == Request(1, 0)
    ensures BucketsAt(l, rs, n) == if n == 0 then map[] else map[1 := Bucket((l.burst - n) as real, 0)]
    ensures LatestOf(rs, 1, n) == if n == 0 then None else Some(0)
  {
    hide Times;
    if n > 0 {
      Draining(l, rs, n - 1);
    }
  }

  /** When the bucket left over does not suffice t nanoseconds later, the run up to there is refused twice. */
  lemma RefusedTwice(l: Limits, t: nat)
    requires t == 0 || l.burst > 0
    requires var b := Refilled(l, LeftOver(l), t); b.tokens < 1.0 && !Suffices(l, b.tokens)
    ensures var rs, k := RunAt(l, t), Drained(l);
            Retries(l, rs, k, k + 1) && !Allowed(l, rs, k + 1)
  {
    var rs, k, b := RunAt(l, t), Drained(l), Refilled(l, LeftOver(l), t);
    Draining(l, rs, k);
    SufficesAnyTime(l, b);
    hide Times, Suffices, Seconds, RetryAfter, LatestOf;
    assert BucketOf(l, BucketsAt(l, rs, k), 1, t) == LeftOver(l);
    assert b.last == t && FoundBy(l, rs, k) == b;
    assert BucketsAt(l, rs, k + 1)[1] == b;
  }

  /** A limiter that cannot be trusted: drained at time 0, it refuses again, the first refusal being at 0 ns or at 1 ns. */
  lemma RefusedAgain(l: Limits) returns (rs: seq<Request>, k: nat)
    requires l.rate < 1.0 || l.burst < 1
    ensures Retries(l, rs, k, k + 1) && !Allowed(l, rs, k + 1)
  {
    var t := 0;
    hide Suffices;
    if Suffices(l, LeftOver(l).tokens) {
      t := 1;
      OneNanosecond(l);
    }
    hide *;
    RefusedTwice(l, t);
    rs, k := RunAt(l, t), Drained(l);
  }

  /** If the missing token is a whole number of seconds away, the rest of it after one nanosecond is not. */
  lemma OneNanosecond(l: Limits)
    requires (l.rate < 1.0 || l.burst < 1) && Suffices(l, LeftOver(l).tokens)
    ensures l.burst > 0
    ensures var b := Refilled(l, LeftOver(l), 1); b.tokens < 1.0 && !Suffices(l, b.tokens)
  {
    SufficesIff(l, LeftOver(l).tokens);
    var tokens := Times(Seconds(1), l.rate);
    hide Suffices;
    Sooner(l.rate);
    assert Refilled(l, LeftOver(l), 1).tokens == tokens;
    SufficesIff(l, tokens);
  }

  lemma Sooner(rate: real)
    requires 0.0 < rate < 1.0 && Whole(1.0 / rate)
    ensures var tokens := Times(Seconds(1), rate);
            0.0 < tokens < 1.0 && 1.0 - tokens > rate && !Whole((1.0 - tokens) / rate)
  {
    var need, ns := 1.0 / rate, Seconds(1);
    Quotient(1.0, rate);
    assert Times(need - ns, rate) == 1.0 - Times(ns, rate);
    ScaleBack(need, 1.0, rate);
    ScaleBack(1.0, need, rate);
    assert need > 1.0 && need >= 2.0;
    ScaleBack(need - ns, 1.0, rate);
    ScaleBack(1.0, need - ns, rate);
    ScaleBack(ns, 0.0, rate);
    ScaleBack(0.0, ns, rate);
    TimesNone(rate);
    Quotient(1.0 - Times(ns, rate), rate);
    Cancel((1.0 - Times(ns, rate)) / rate, need - ns, rate);
    NotWhole(need, ns);
  }

  lemma Cancel(x: real, y: real, rate: real)
    requires rate > 0.0 && Times(x, rate) == Times(y, rate)
    ensures x == y
  {
    hide Times;
    ScaleBack(x, y, rate);
    ScaleBack(y, x, rate);
  }

  lemma NotWhole(x: real, d: real)
    requires Whole(x) && 0.0 < d < 1.0
    ensures !Whole(x - d)
  {
    assert (x - d).Floor == x.Floor - 1;
  }

  lemma {:induction false} Untouched(l: Limits, rs: seq<Request>, c: Client, k: nat, n: nat)
    requires k <= n <= |rs| && forall i :: k <= i < n ==> rs[i].client != c
    requires c in BucketsAt(l, rs, k)
    ensures c in BucketsAt(l, rs, n) && BucketsAt(l, rs, n)[c] == BucketsAt(l, rs, k)[c]
    decreases n
  {
    if k < n {
      Untouched(l, rs, c, k, n - 1);
    }
  }
}
