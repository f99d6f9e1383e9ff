/** Push delivery: backoff and Retry-After in 64-bit arithmetic, the bounded retry loop, tokens without duplicates. */
module Fcm {
  import opened Common

  type Token = nat
  type Client = nat

  const MAX_BACKOFF := 10000000000
  const MAX_RETRIES := 3

  // ---------- 64-bit arithmetic ----------

  function Wrap64(x: int): int {
    (x + 0x8000_0000_0000_0000) % 0x1_0000_0000_0000_0000 - 0x8000_0000_0000_0000
  }

  lemma WrapFits(x: int)
    requires -0x8000_0000_0000_0000 <= x < 0x8000_0000_0000_0000
    ensures Wrap64(x) == x
  {}

  lemma WrapKeepsMultiples(y: int)
    ensures exists z: int :: Wrap64(0x4_0000_0000 * y) == 0x4_0000_0000 * z
  {
    var x := 0x4_0000_0000 * y;
    var q := (x + 0x8000_0000_0000_0000) / 0x1_0000_0000_0000_0000;
    assert Wrap64(x) == x - q * 0x1_0000_0000_0000_0000;
    assert Wrap64(x) == 0x4_0000_0000 * (y - q * 0x4000_0000);
  }

  lemma {:induction false} Pow2Sum(m: nat, n: nat)
    ensures Pow2(m + n) == Pow2(m) * Pow2(n)
  {
    if m > 0 {
      Pow2Sum(m - 1, n);
      assert Pow2(m + n) == 2 * Pow2(m - 1 + n);
      assert Pow2(m) * Pow2(n) == 2 * (Pow2(m - 1) * Pow2(n));
    } else {
      assert Pow2(0) == 1;
    }
  }

  lemma {:induction false} Pow2Grows(m: nat, n: nat)
    requires m <= n
    ensures Pow2(m) <= Pow2(n)
  {
    if m < n {
      Pow2Grows(m, n - 1);
    }
  }

  lemma Pow2Values()
    ensures Pow2(5) == 32 && Pow2(25) == 0x200_0000 && Pow2(26) == 0x400_0000
  {
    assert Pow2(5) == 32 && Pow2(10) == 1024 by {
      assert Pow2(2) == 4 && Pow2(4) == 16 && Pow2(6) == 64 && Pow2(8) == 256;
    }
    Pow2Sum(10, 10);
    Pow2Sum(20, 5);
    assert Pow2(26) == 2 * Pow2(25);
  }

  // ---------- backoff ----------

  /** The shift wraps, and the cap is applied to what is left. */
  function BackoffCap(attempt: nat): int {
    var d := Wrap64(500000000 * Pow2(attempt));
    if d > MAX_BACKOFF || d <= 0 then MAX_BACKOFF else d
  }

  function Min(a: int, b: int): int { if a <= b then a else b }

  /** THE BACKOFF CAP. For every attempt, shifted out of range or not, the cap is min(500 ms * 2^attempt, 10 s): from
      attempt 26 on the shifted value is a multiple of 2^34 ns, which is either not positive or above 10 s. */
  lemma BackoffCapIs(attempt: nat)
    ensures BackoffCap(attempt) == Min(500000000 * Pow2(attempt), 10000000000)
  {
    if attempt <= 25 {
      Unwrapped(attempt);
    } else {
      OutOfRange(attempt);
    }
    hide Pow2, Wrap64;
  }

  lemma Unwrapped(attempt: nat)
    requires attempt <= 25
    ensures Pow2(attempt) > 0 && Wrap64(500000000 * Pow2(attempt)) == 500000000 * Pow2(attempt)
  {
    Pow2Values();
    Pow2Grows(attempt, 25);
    Pow2Grows(0, attempt);
    WrapFits(500000000 * Pow2(attempt));
  }

  lemma OutOfRange(attempt: nat)
    requires attempt >= 26
    ensures var d := Wrap64(500000000 * Pow2(attempt)); d <= 0 || d > 10000000000
    ensures 500000000 * Pow2(attempt) > 10000000000
  {
    var n := attempt - 26;
    Pow2Values();
    Pow2Sum(26, n);
    Pow2Grows(0, n);
    hide Pow2;
    assert 500000000 * Pow2(attempt) == 0x4_0000_0000 * (1953125 * Pow2(n));
    WrapKeepsMultiples(1953125 * Pow2(n));
    hide Wrap64;
    var z :| Wrap64(0x4_0000_0000 * (1953125 * Pow2(n))) == 0x4_0000_0000 * z;
  }

  // ---------- Retry-After ----------

  predicate IsDigit(c: char) { '0' as int <= c as int <= '9' as int }

  function DigitValue(c: char): nat
    requires IsDigit(c)
  {
    c as int - '0' as int
  }

  function Digits(s: string, n: nat): Option<nat>
    requires n <= |s|
  {
    if n == 0 then Some(0)
    else
      var high := Digits(s, n - 1);
      if high.Some? && IsDigit(s[n - 1]) then Some(10 * high.value + DigitValue(s[n - 1])) else None
  }

  /** strconv.Atoi: an optional sign, at least one digit, within 64 bits. */
  function Atoi(s: string): Option<int> {
    var signed := s != "" && (s[0] == '+' || s[0] == '-');
    var t := if signed then s[1..] else s;
    var m := Digits(t, |t|);
    if t == "" || m.None? then None
    else
      var v: int := if signed && s[0] == '-' then -(m.value as int) else m.value;
      if -0x8000_0000_0000_0000 <= v < 0x8000_0000_0000_0000 then Some(v) else None
  }

  /** The wait a Retry-After header asks for; the product wraps before it is capped. */
  function ParseRetryAfter(h: string): int {
    var secs := Atoi(h);
    if h == "" || secs.None? || secs.value < 0 then 0
    else
      var d := Wrap64(secs.value * 1000000000);
      if d > MAX_BACKOFF then MAX_BACKOFF else d
  }

  /** WHAT A RETRY-AFTER HEADER IS WORTH. Whatever it says, the wait is at most 10 s, and none for an unreadable or negative
      one. For any other header, of v seconds, it is min(v, 10 s) exactly when the product fits 64 bits, or wraps to
      10 s and more. */
  lemma {:induction false} RetryAfterIs(h: string)
    ensures ParseRetryAfter(h) <= 10000000000
    ensures Atoi(h).None? || Atoi(h).value < 0 ==> ParseRetryAfter(h) == 0
    ensures Atoi(h).Some? && Atoi(h).value >= 0 ==>
              var v := Atoi(h).value;
              ParseRetryAfter(h) == Min(v * 1000000000, 10000000000) <==>
              v <= 9223372036 || Wrap64(v * 1000000000) >= 10000000000
  {
    assert Atoi("").None?;
    if Atoi(h).Some? && 0 <= Atoi(h).value <= 9223372036 {
      WrapFits(Atoi(h).value * 1000000000);
    }
  }

  lemma {:induction false} DigitsSnoc(s: string, n: nat)
    requires n < |s| && Digits(s, n).Some? && IsDigit(s[n])
    ensures Digits(s, n + 1) == Some(10 * Digits(s, n).value + DigitValue(s[n]))
  {}

  /** The decimal notation of n. */
  function Decimal(n: nat): (s: string)
    ensures s != ""
  {
    if n < 10 then [DigitChar(n)] else Decimal(n / 10) + [DigitChar(n % 10)]
  }

  function DigitChar(d: nat): char
    requires d < 10
  {
    "0123456789"[d]
  }

  lemma DigitCharIs(d: nat)
    requires d < 10
    ensures IsDigit(DigitChar(d)) && DigitValue(DigitChar(d)) == d
  {}

  lemma {:induction false} DigitsPrefix(s: string, t: string, n: nat)
    requires n <= |s| <= |t| && s == t[..|s|]
    ensures Digits(t, n) == Digits(s, n)
  {
    if n > 0 {
      DigitsPrefix(s, t, n - 1);
    }
  }

  lemma {:induction false} DigitsOfDecimal(n: nat)
    ensures Digits(Decimal(n), |Decimal(n)|) == Some(n) && Decimal(n)[0] != '+' && Decimal(n)[0] != '-'
  {
    DigitCharIs(n % 10);
    if n >= 10 {
      var high, s := Decimal(n / 10), Decimal(n);
      DigitsOfDecimal(n / 10);
      DigitsPrefix(high, s, |high|);
      hide Decimal, DigitChar;
      DigitsSnoc(s, |high|);
    } else {
      assert Digits(Decimal(n), 0) == Some(0);
    }
  }

  /** Atoi reads back every number that fits 64 bits, with or without a sign, and refuses every one that does not. */
  lemma {:induction false} AtoiReadsDecimals(n: nat)
    ensures Atoi(Decimal(n)) == Atoi("+" + Decimal(n)) == (if n < 0x8000_0000_0000_0000 then Some(n) else None)
    ensures Atoi("-" + Decimal(n)) == if n <= 0x8000_0000_0000_0000 then Some(-(n as int)) else None
  {
    var s := Decimal(n);
    DigitsOfDecimal(n);
    hide Decimal, Digits;
    assert ("+" + s)[1..] == s && ("-" + s)[1..] == s;
  }

  /** A character that is no digit, behind the sign, makes a header unreadable. */
  lemma {:induction false} OtherCharacters(s: string, k: nat)
    requires k < |s| && !IsDigit(s[k]) && (k > 0 || (s[0] != '+' && s[0] != '-'))
    ensures Atoi(s).None?
  {
    var signed := s[0] == '+' || s[0] == '-';
    var t := if signed then s[1..] else s;
    NotAllDigits(t, if signed then k - 1 else k, |t|);
    hide Digits;
  }

  lemma {:induction false} NotAllDigits(t: string, k: nat, n: nat)
    requires k < n <= |t| && !IsDigit(t[k])
    ensures Digits(t, n).None?
  {
    if k < n - 1 {
      NotAllDigits(t, k, n - 1);
    }
  }

  /** A header of 0 to 10 seconds is granted to the second, one above, as far as 9223372036 s, is granted 10 s. */
  lemma HeaderIsHonoured(v: nat)
    ensures v <= 10 ==> ParseRetryAfter(Decimal(v)) == v * 1000000000
    ensures 10 <= v <= 9223372036 ==> ParseRetryAfter(Decimal(v)) == 10000000000
  {
    AtoiReadsDecimals(v);
    RetryAfterIs(Decimal(v));
    hide ParseRetryAfter, Atoi, Decimal, Wrap64;
  }

  /** A header that is taken for a fraction of a second although it asks for centuries. */
  const WRAPPING := "18446744074"

  lemma WrappingIs()
    ensures Atoi(WRAPPING) == Some(18446744074)
  {
    var s := WRAPPING;
    assert |s| == 11 && Digits(s, 0) == Some(0);
    hide Digits;
    DigitsSnoc(s, 0);
    DigitsSnoc(s, 1);
    DigitsSnoc(s, 2);
    DigitsSnoc(s, 3);
    DigitsSnoc(s, 4);
    DigitsSnoc(s, 5);
    DigitsSnoc(s, 6);
    DigitsSnoc(s, 7);
    DigitsSnoc(s, 8);
    DigitsSnoc(s, 9);
    DigitsSnoc(s, 10);
    assert Digits(s, 11) == Some(18446744074);
  }

  /** The product 18446744074 * 10^9 wraps to 290448384: the header asks for 584 years and gets 0.29 s. */
  lemma OverflowingHeader()
    ensures Atoi(WRAPPING) == Some(18446744074) && ParseRetryAfter(WRAPPING) == 290448384
  {
    WrappingIs();
    assert 18446744074 * 1000000000 - 0x1_0000_0000_0000_0000 == 290448384;
  }

  // ---------- the retry loop ----------

  /** What one attempt meets: no request could be made, the network failed, or FCM answered. */
  datatype Reply = LocalError | NetworkError | Http(status: int, retryAfter: string)

  predicate Stale(r: Reply) { r.Http? && (r.status == 404 || r.status == 400) }

  predicate Transient(r: Reply) { r.NetworkError? || (r.Http? && (r.status == 429 || r.status >= 500)) }

  /** fcmBackoff with full jitter; `draw` is the random number behind rand.Int63n. */
  function FcmBackoff(attempt: nat, draw: nat): (wait: int)
    ensures 0 <= wait <= Min(500000000 * Pow2(attempt), 10000000000)
  {
    BackoffCapIs(attempt);
    Pow2Grows(0, attempt);
    draw % (BackoffCap(attempt) + 1)
  }

  /** The jitter is full: every wait up to the cap can be drawn. */
  lemma {:induction false} JitterIsFull(attempt: nat, wait: nat)
    requires wait <= Min(500000000 * Pow2(attempt), 10000000000)
    ensures FcmBackoff(attempt, wait) == wait
  {
    BackoffCapIs(attempt);
    hide Pow2, BackoffCap;
    SmallRemainder(wait, BackoffCap(attempt));
  }

  lemma SmallRemainder(x: nat, cap: int)
    requires x <= cap
    ensures x % (cap + 1) == x
  {}

  /** The sleep after attempt k met reply r; `draw` is the random number behind the jitter. */
  function SleepAfter(k: nat, r: Reply, draw: nat): int {
    var asked := if r.Http? then ParseRetryAfter(r.retryAfter) else 0;
    if asked <= 0 then FcmBackoff(k, draw) else asked
  }

  lemma SleepAtMostTen(k: nat, r: Reply, draw: nat)
    ensures 0 <= SleepAfter(k, r, draw) <= 10000000000
    ensures !(r.Http? && ParseRetryAfter(r.retryAfter) > 0) ==>
              SleepAfter(k, r, draw) <= Min(500000000 * Pow2(k), 10000000000)
  {
    if r.Http? {
      RetryAfterIs(r.retryAfter);
    }
    hide ParseRetryAfter, FcmBackoff, Pow2;
  }

  /** What FCM asks for in whole seconds up to 10 is slept, and nothing else; without it the sleep is the backoff. */
  lemma SleepHonours(k: nat, status: int, v: nat, draw: nat)
    ensures 1 <= v <= 10 ==> SleepAfter(k, Http(status, Decimal(v)), draw) == v * 1000000000
    ensures draw <= Min(500000000 * Pow2(k), 10000000000) ==>
              SleepAfter(k, Http(status, ""), draw) == SleepAfter(k, NetworkError, draw) == draw
  {
    HeaderIsHonoured(v);
    if draw <= Min(500000000 * Pow2(k), 10000000000) {
      JitterIsFull(k, draw);
    }
    assert ParseRetryAfter("") == 0;
    hide ParseRetryAfter, FcmBackoff, Pow2, Decimal;
  }

  lemma SleepIs(k: nat, r: Reply, draw: nat)
    ensures var asked := if r.Http? then ParseRetryAfter(r.retryAfter) else 0;
            SleepAfter(k, r, draw) == if asked <= 0 then FcmBackoff(k, draw) else asked
  {}

  /** Each attempt so far met a reply worth retrying, and was followed by the sleep due after it. */
  ghost predicate Slept(replies: nat -> Reply, draws: nat -> nat, sleeps: seq<int>) {
    forall k: nat :: k < |sleeps| ==> Transient(replies(k)) && sleeps[k] == SleepAfter(k, replies(k), draws(k))
  }

  lemma OneMoreSleep(replies: nat -> Reply, draws: nat -> nat, sleeps: seq<int>, wait: int)
    requires Slept(replies, draws, sleeps) && Transient(replies(|sleeps|))
    requires wait == SleepAfter(|sleeps|, replies(|sleeps|), draws(|sleeps|))
    ensures Slept(replies, draws, sleeps + [wait])
  {
    hide SleepAfter, Transient;
  }

  lemma SleptBound(replies: nat -> Reply, draws: nat -> nat, sleeps: seq<int>)
    requires Slept(replies, draws, sleeps)
    ensures forall k :: 0 <= k < |sleeps| ==> 0 <= sleeps[k] <= 10000000000
    ensures 0 <= Sum(sleeps) <= 10000000000 * |sleeps|
  {
    forall k: nat | k < |sleeps|
      ensures 0 <= sleeps[k] <= 10000000000
    {
      SleepAtMostTen(k, replies(k), draws(k));
    }
    SumBound(sleeps, 10000000000);
  }

  function Sum(s: seq<int>): int {
    if s == [] then 0 else Sum(s[..|s| - 1]) + s[|s| - 1]
  }

  lemma {:induction false} SumBound(s: seq<int>, m: int)
    requires forall i :: 0 <= i < |s| ==> 0 <= s[i] <= m
    ensures 0 <= Sum(s) <= m * |s|
  {
    if s != [] {
      SumBound(s[..|s| - 1], m);
    }
  }

  class Sender {
    var tokens: map<Client, set<Token>>

    constructor ()
      ensures tokens == map[]
    {
      tokens := map[];
    }

    function TokensOf(c: Client): set<Token>
      reads this
    {
      if c in tokens then tokens[c] else {}
    }

    method Remove(c: Client, t: Token)
      modifies this
      ensures TokensOf(c) == old(TokensOf(c)) - {t}
      ensures forall d :: d != c ==> TokensOf(d) == old(TokensOf(d))
    {
      if c in tokens {
        tokens := tokens[c := tokens[c] - {t}];
      }
    }

    /** One post; `done` when no retry should follow. */
    method SendAttempt(c: Client, t: Token, r: Reply) returns (retryAfter: int, done: bool)
      modifies this
      ensures done <==> !r.NetworkError? && !(r.Http? && (r.status == 429 || r.status >= 500))
      ensures retryAfter == if !done && r.Http? then ParseRetryAfter(r.retryAfter) else 0
      ensures tokens == old(tokens) || done
      ensures TokensOf(c) == if r.Http? && r.status in {400, 404} then old(TokensOf(c)) - {t} else old(TokensOf(c))
      ensures forall d :: d != c ==> TokensOf(d) == old(TokensOf(d))
    {
      match r {
        case LocalError => return 0, true;
        case NetworkError => return 0, false;
        case Http(status, header) =>
          if status == 200 {
            return 0, true;
          }
          if status == 404 || status == 400 {
            Remove(c, t);
            return 0, true;
          }
          if status == 429 || status >= 500 {
            var wait := ParseRetryAfter(header);
            return wait, false;
          }
          return 0, true;
      }
    }

    /** Reply k is what attempt k would meet. The loop stops at the first reply that is final, after 4 attempts at the
        latest; it posts once per attempt, sleeps between attempts for 30 s in all at most, and prunes the token exactly
        when the last reply calls it stale. */
    method SendOne(c: Client, t: Token, replies: nat -> Reply, draws: nat -> nat)
      returns (attempts: nat, posts: nat, sleeps: seq<int>)
      modifies this
      ensures 1 <= attempts <= 4 && posts <= attempts
      ensures attempts < 4 ==> !Transient(replies(attempts - 1))
      ensures posts == if replies(attempts - 1).LocalError? then attempts - 1 else attempts
      ensures |sleeps| == attempts - 1 && Slept(replies, draws, sleeps)
      ensures (forall k :: 0 <= k < |sleeps| ==> 0 <= sleeps[k] <= 10000000000) && Sum(sleeps) <= 30000000000
      ensures TokensOf(c) == if Stale(replies(attempts - 1)) then old(TokensOf(c)) - {t} else old(TokensOf(c))
      ensures forall d :: d != c ==> TokensOf(d) == old(TokensOf(d))
    {
      var attempt := 0;
      posts, sleeps := 0, [];
      while true
        invariant attempt <= 3 && posts == attempt && |sleeps| == attempt && tokens == old(tokens)
        invariant Slept(replies, draws, sleeps)
        decreases 3 - attempt
      {
        hide ParseRetryAfter, FcmBackoff, Sum, Slept, SleepAfter;
        var r := replies(attempt);
        if !r.LocalError? {
          posts := posts + 1;
        }
        var retryAfter, done := SendAttempt(c, t, r);
        if done || attempt >= MAX_RETRIES {
          SleptBound(replies, draws, sleeps);
          return attempt + 1, posts, sleeps;
        }
        var wait := retryAfter;
        if wait <= 0 {
          wait := FcmBackoff(attempt, draws(attempt));
        }
        assert wait == SleepAfter(attempt, r, draws(attempt)) by {
          SleepIs(attempt, r, draws(attempt));
        }
        OneMoreSleep(replies, draws, sleeps, wait);
        sleeps := sleeps + [wait];
        attempt := attempt + 1;
      }
    }
  }

  // ---------- tokens without duplicates ----------

  /** The first n tokens with repetitions left out. */
  function Deduped(s: seq<Token>, n: nat): seq<Token>
    requires n <= |s|
  {
    if n == 0 then []
    else if s[n - 1] in s[..n - 1] then Deduped(s, n - 1)
    else Deduped(s, n - 1) + [s[n - 1]]
  }

  /** Works in place: the kept tokens move to the front of the array, whose tail stays as it was. */
  method DedupTokens(a: array<Token>) returns (n: nat)
    modifies a
    ensures n <= a.Length && a[..n] == Deduped(old(a[..]), a.Length) && a[n..] == old(a[n..])
  {
    ghost var s := a[..];
    if a.Length < 2 {
      assert a.Length == 1 ==> Deduped(s, 0) == [] && Deduped(s, 1) == [s[0]];
      return a.Length;
    }
    var seen := {};
    n := 0;
    for i := 0 to a.Length
      invariant n <= i && a[..n] == Deduped(s, i) && (forall t :: t in seen <==> t in s[..i])
      invariant forall k :: n <= k < a.Length ==> a[k] == s[k]
    {
      var t := a[i];
      assert s[..i + 1] == s[..i] + [t];
      if t in seen {
        continue;
      }
      seen := seen + {t};
      a[n] := t;
      n := n + 1;
    }
  }

  /** Position k holds the first occurrence of its token. */
  predicate First(s: seq<Token>, k: nat) { k < |s| && s[k] !in s[..k] }

  /** Deduped keeps the first occurrence of each token, in their order. */
  lemma {:induction false} DedupedAre(s: seq<Token>, n: nat) returns (from: seq<nat>)
    requires n <= |s|
    ensures |from| == |Deduped(s, n)|
    ensures forall p :: 0 <= p < |from| ==> from[p] < n && First(s, from[p]) && s[from[p]] == Deduped(s, n)[p]
    ensures forall p, q :: 0 <= p < q < |from| ==> from[p] < from[q]
    ensures forall k :: 0 <= k < n && First(s, k) ==> k in from
  {
    if n == 0 {
      from := [];
    } else {
      from := DedupedAre(s, n - 1);
      if s[n - 1] !in s[..n - 1] {
        from := from + [n - 1];
      }
    }
  }

  lemma {:induction false} FirstOf(s: seq<Token>, k: nat) returns (f: nat)
    requires k < |s|
    ensures f <= k && First(s, f) && s[f] == s[k]
  {
    if s[k] in s[..k] {
      var j :| 0 <= j < k && s[..k][j] == s[k];
      f := FirstOf(s, j);
    } else {
      f := k;
    }
  }

  /** No token twice, none lost, none new. */
  lemma DedupKeepsTheSet(s: seq<Token>)
    ensures forall p, q :: 0 <= p < q < |Deduped(s, |s|)| ==> Deduped(s, |s|)[p] != Deduped(s, |s|)[q]
    ensures forall t :: t in Deduped(s, |s|) <==> t in s
  {
    var d := Deduped(s, |s|);
    var from := DedupedAre(s, |s|);
    forall p, q | 0 <= p < q < |d|
      ensures d[p] != d[q]
    {
      assert s[from[p]] in s[..from[q]];
    }
    forall t | t in s
      ensures t in d
    {
      var k :| 0 <= k < |s| && s[k] == t;
      var f := FirstOf(s, k);
      var p :| 0 <= p < |from| && from[p] == f;
      assert d[p] == t;
    }
    forall t | t in d
      ensures t in s
    {
      var p :| 0 <= p < |d| && d[p] == t;
      assert s[from[p]] == t;
    }
  }
}
