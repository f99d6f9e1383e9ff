/** The per-client state of the poller as the code keeps it, one method per lock region, and what the circuit breaker and
    the favourites tracking do over many jobs. */
module PollerCore {
  import opened Common
  import opened Poller

  type Key = nat

  /** One row of the favourites page; `key` is threadKey(url), `count` is parseUnread(unread). */
  datatype Favorite = Favorite(url: string, title: string, unread: string, key: Key, count: nat)

  datatype ThreadActivity = ThreadActivity(title: string, url: string, key: Key, count: nat)

  /** What a job meets when its client is ungated and not skipped, or that it is gated. */
  datatype Outcome = NobodyListens | ScrapeFails | ScrapeOk

  // ---------- circuit breaker ----------

  predicate Skips(b: Option<Breaker>) { b.Some? && b.value.skip > 0 }

  predicate Attempts(b: Option<Breaker>, o: Outcome) { !Skips(b) && !o.NobodyListens? }

  /** The breaker of a client after one job. */
  function Handled(b: Option<Breaker>, o: Outcome): Option<Breaker> {
    if Skips(b) then Some(b.value.(skip := b.value.skip - 1))
    else match o
      case NobodyListens => b
      case ScrapeFails => Some(Failed(b))
      case ScrapeOk => if b.Some? then Some(Breaker(0, 0)) else None
  }

  /** The breaker before job n. */
  function BreakerAt(b: Option<Breaker>, jobs: seq<Outcome>, n: nat): Option<Breaker>
    requires n <= |jobs|
  {
    if n == 0 then b else Handled(BreakerAt(b, jobs, n - 1), jobs[n - 1])
  }

  /** How many of the first n jobs scrape. */
  function AttemptCount(b: Option<Breaker>, jobs: seq<Outcome>, n: nat): nat
    requires n <= |jobs|
  {
    if n == 0 then 0
    else AttemptCount(b, jobs, n - 1) + (if Attempts(BreakerAt(b, jobs, n - 1), jobs[n - 1]) then 1 else 0)
  }

  /** The skips imposed by the first k failures in a row: 2 + 4 + 8 + 16 + 16 + ... */
  function Imposed(k: nat): nat {
    if k == 0 then 0 else Imposed(k - 1) + SkipsAfter(k)
  }

  function SkipsAfter(fails: nat): nat { Pow2(if fails < 4 then fails else 4) }

  lemma SkipsAfterIs(k: nat)
    requires k > 0
    ensures 2 <= SkipsAfter(k) <= 16 && (k >= 4 ==> SkipsAfter(k) == 16)
    ensures k == 1 ==> SkipsAfter(k) == 2
    ensures k == 2 ==> SkipsAfter(k) == 4
    ensures k == 3 ==> SkipsAfter(k) == 8
  {
    assert Pow2(1) == 2 && Pow2(2) == 4 && Pow2(3) == 8 && Pow2(4) == 16;
  }

  lemma SkipsAfterGrows(j: nat, k: nat)
    requires 0 < j <= k
    ensures SkipsAfter(j) <= SkipsAfter(k)
  {
    SkipsAfterIs(j);
    SkipsAfterIs(k);
  }

  lemma {:induction false} ImposedIs(k: nat)
    requires k >= 3
    ensures Imposed(k) == 16 * k - 34
  {
    SkipsAfterIs(k);
    if k == 3 {
      SkipsAfterIs(1);
      SkipsAfterIs(2);
      assert Imposed(2) == Imposed(1) + SkipsAfter(2) && Imposed(1) == Imposed(0) + SkipsAfter(1);
    } else {
      ImposedIs(k - 1);
    }
  }

  lemma {:induction false} AttemptsPay(b: Option<Breaker>, jobs: seq<Outcome>, n: nat)
    requires n <= |jobs| && forall k :: 0 <= k < n ==> !jobs[k].ScrapeOk?
    ensures var a, now := AttemptCount(b, jobs, n), BreakerAt(b, jobs, n);
            && (a > 0 ==> now.Some?) && (now.Some? ==> now.value.fails >= a)
            && n + (if now.Some? then now.value.skip else 0) >= a + Imposed(a)
            && (a > 0 ==> n >= a + Imposed(a - 1))
  {
    if n > 0 {
      AttemptsPay(b, jobs, n - 1);
      var a, now := AttemptCount(b, jobs, n - 1), BreakerAt(b, jobs, n - 1);
      if Attempts(now, jobs[n - 1]) {
        SkipsAfterGrows(a + 1, Failed(now).fails);
      }
    }
  }

  /** THE BREAKER BOUND. If no scrape of a client succeeds, n jobs in a row scrape at most 3 + n / 17 times, whatever the
      breaker was before. */
  lemma AttemptsBounded(b: Option<Breaker>, jobs: seq<Outcome>)
    requires forall k :: 0 <= k < |jobs| ==> !jobs[k].ScrapeOk?
    ensures AttemptCount(b, jobs, |jobs|) <= 3 + |jobs| / 17
  {
    var a := AttemptCount(b, jobs, |jobs|);
    AttemptsPay(b, jobs, |jobs|);
    if a > 3 {
      ImposedIs(a - 1);
    }
  }

  /** The bound is met: 18 failing jobs from a fresh breaker scrape at 0, 3, 8 and 17. */
  lemma BoundIsMet()
    ensures AttemptCount(None, seq(18, _ => ScrapeFails), 18) == 3 + 18 / 17
  {
    var jobs := seq(18, _ => ScrapeFails);
    assert Pow2(1) == 2 && Pow2(2) == 4 && Pow2(3) == 8 && Pow2(4) == 16;
    FailThenSkip(None, jobs, 0, 1);
    FailThenSkip(None, jobs, 3, 2);
    FailThenSkip(None, jobs, 8, 3);
    assert BreakerAt(None, jobs, 17) == Some(Breaker(3, 0));
  }

  /** Job i fails as failure number f: the next SkipsAfter(f) jobs are skipped, whatever they are, and then none is. */
  lemma {:induction false} SkippedThen(b: Option<Breaker>, jobs: seq<Outcome>, i: nat, m: nat)
    requires i + m <= |jobs| && BreakerAt(b, jobs, i).Some? && m <= BreakerAt(b, jobs, i).value.skip
    ensures var br := BreakerAt(b, jobs, i).value;
            && BreakerAt(b, jobs, i + m) == Some(br.(skip := br.skip - m))
            && AttemptCount(b, jobs, i + m) == AttemptCount(b, jobs, i)
  {
    if m > 0 {
      SkippedThen(b, jobs, i, m - 1);
    }
  }

  lemma FailThenSkip(b: Option<Breaker>, jobs: seq<Outcome>, i: nat, f: nat)
    requires i < |jobs| && jobs[i].ScrapeFails? && !Skips(BreakerAt(b, jobs, i)) && i + 1 + SkipsAfter(f) <= |jobs|
    requires f == (if BreakerAt(b, jobs, i).Some? then BreakerAt(b, jobs, i).value.fails else 0) + 1
    ensures var next := i + 1 + SkipsAfter(f);
            && BreakerAt(b, jobs, next) == Some(Breaker(f, 0)) && !Skips(BreakerAt(b, jobs, next))
            && AttemptCount(b, jobs, next) == AttemptCount(b, jobs, i) + 1
  {
    SkippedThen(b, jobs, i + 1, SkipsAfter(f));
  }

  /** No breaker ever asks for more than 16 skips, so a client with listeners is scraped at least once in 17 jobs. */
  lemma {:induction false} AttemptsKeepComing(b: Option<Breaker>, jobs: seq<Outcome>, n: nat)
    requires n <= |jobs| && !Skips(b) && forall k :: 0 <= k < n ==> !jobs[k].NobodyListens?
    ensures var now := BreakerAt(b, jobs, n); now.Some? ==> now.value.skip <= 16
    ensures var now := BreakerAt(b, jobs, n);
            17 * AttemptCount(b, jobs, n) >= n + (if now.Some? then now.value.skip else 0)
  {
    if n > 0 {
      AttemptsKeepComing(b, jobs, n - 1);
      var now := BreakerAt(b, jobs, n - 1);
      if Attempts(now, jobs[n - 1]) {
        SkipsAfterIs(Failed(now).fails);
      }
    }
  }

  /** The job after a success is never skipped; the next failure after it counts as the first. */
  lemma AfterSuccess(b: Option<Breaker>, next: Outcome)
    requires Attempts(b, ScrapeOk)
    ensures Attempts(Handled(b, ScrapeOk), next) <==> !next.NobodyListens?
    ensures Handled(Handled(b, ScrapeOk), ScrapeFails) == Some(Breaker(1, 2))
  {
    assert Pow2(1) == 2;
  }

  // ---------- favourites ----------

  /** Only rows with an unread badge are new activity. */
  predicate Kept(f: Favorite) { f.url != "" && f.title != "" && f.unread != "" }

  /** newMap after n rows. */
  function Counts(favs: seq<Favorite>, n: nat): map<Key, nat>
    requires n <= |favs|
  {
    if n == 0 then map[]
    else if Kept(favs[n - 1]) then Counts(favs, n - 1)[favs[n - 1].key := favs[n - 1].count]
    else Counts(favs, n - 1)
  }

  predicate Rose(prev: map<Key, nat>, f: Favorite) {
    Kept(f) && (f.key !in prev || f.count > prev[f.key])
  }

  function Activity(f: Favorite): ThreadActivity { ThreadActivity(f.title, f.url, f.key, f.count) }

  function Reported(prev: map<Key, nat>, favs: seq<Favorite>, n: nat): seq<ThreadActivity>
    requires n <= |favs|
  {
    if n == 0 then []
    else Reported(prev, favs, n - 1) + (if Rose(prev, favs[n - 1]) then [Activity(favs[n - 1])] else [])
  }

  /** Row k is the last kept row of its thread. */
  ghost predicate LastOfThread(favs: seq<Favorite>, k: nat) {
    && k < |favs| && Kept(favs[k])
    && forall m :: k < m < |favs| && Kept(favs[m]) ==> favs[m].key != favs[k].key
  }

  ghost predicate DistinctThreads(favs: seq<Favorite>) {
    forall k :: 0 <= k < |favs| && Kept(favs[k]) ==> LastOfThread(favs, k)
  }

  lemma {:induction false} CountsAre(favs: seq<Favorite>, n: nat, key: Key)
    requires n <= |favs|
    ensures key in Counts(favs, n) <==> exists k :: 0 <= k < n && Kept(favs[k]) && favs[k].key == key
    ensures forall k :: 0 <= k < n && Kept(favs[k]) && favs[k].key == key
                        && (forall m :: k < m < n && Kept(favs[m]) ==> favs[m].key != key)
                        ==> Counts(favs, n)[key] == favs[k].count
  {
    if n > 0 {
      CountsAre(favs, n - 1, key);
    }
  }

  lemma {:induction false} ReportedAre(prev: map<Key, nat>, favs: seq<Favorite>, n: nat)
    requires n <= |favs|
    ensures forall k :: 0 <= k < n && Rose(prev, favs[k]) ==> Activity(favs[k]) in Reported(prev, favs, n)
    ensures forall a :: a in Reported(prev, favs, n) ==> exists k :: 0 <= k < n && Rose(prev, favs[k]) && a == Activity(favs[k])
    ensures Reported(prev, favs, n) == [] <==> forall k :: 0 <= k < n ==> !Rose(prev, favs[k])
  {
    if n > 0 {
      ReportedAre(prev, favs, n - 1);
    }
  }

  /** What is tracked before scrape i, a failed scrape being None. */
  function Tracked(scrapes: seq<Option<seq<Favorite>>>, i: nat): map<Key, nat>
    requires i <= |scrapes|
  {
    if i == 0 then map[]
    else if scrapes[i - 1].Some? then Counts(scrapes[i - 1].value, |scrapes[i - 1].value|)
    else Tracked(scrapes, i - 1)
  }

  /** Scrape p is the last one before i that succeeded. */
  ghost predicate LastGood(scrapes: seq<Option<seq<Favorite>>>, p: nat, i: nat) {
    p < i <= |scrapes| && scrapes[p].Some? && forall k :: p < k < i ==> scrapes[k].None?
  }

  lemma {:induction false} TrackedIsLastGood(scrapes: seq<Option<seq<Favorite>>>, p: nat, i: nat)
    requires LastGood(scrapes, p, i)
    ensures Tracked(scrapes, i) == Counts(scrapes[p].value, |scrapes[p].value|)
    decreases i
  {
    if p < i - 1 {
      TrackedIsLastGood(scrapes, p, i - 1);
    }
  }

  /** Row f is new, or above every last row of its thread in the last good scrape before i, if there is one. */
  ghost predicate NewOrRisen(scrapes: seq<Option<seq<Favorite>>>, i: nat, f: Favorite)
    requires i < |scrapes|
  {
    forall p: nat, m: nat ::
      (LastGood(scrapes, p, i) && LastOfThread(scrapes[p].value, m) && scrapes[p].value[m].key == f.key)
      ==> f.count > scrapes[p].value[m].count
  }

  lemma RoseIff(scrapes: seq<Option<seq<Favorite>>>, i: nat, f: Favorite)
    requires i < |scrapes| && Kept(f)
    ensures Rose(Tracked(scrapes, i), f) <==> NewOrRisen(scrapes, i, f)
  {
    var p := LastGoodBefore(scrapes, i);
    if p.Some? {
      var before := scrapes[p.value].value;
      TrackedIsLastGood(scrapes, p.value, i);
      assert forall q: nat :: LastGood(scrapes, q, i) ==> q == p.value;
      CountsAre(before, |before|, f.key);
      if f.key in Counts(before, |before|) {
        var k :| 0 <= k < |before| && Kept(before[k]) && before[k].key == f.key;
        var m := CountOfThread(before, k);
      }
    }
  }

  lemma {:induction false} LastGoodBefore(scrapes: seq<Option<seq<Favorite>>>, i: nat) returns (p: Option<nat>)
    requires i <= |scrapes|
    ensures p.Some? ==> LastGood(scrapes, p.value, i)
    ensures p.None? ==> (forall q: nat :: !LastGood(scrapes, q, i)) && Tracked(scrapes, i) == map[]
  {
    if i == 0 {
      p := None;
    } else if scrapes[i - 1].Some? {
      p := Some(i - 1);
    } else {
      p := LastGoodBefore(scrapes, i - 1);
      forall q: nat | LastGood(scrapes, q, i)
        ensures LastGood(scrapes, q, i - 1)
      {}
    }
  }

  /** THE FAVOURITES THEOREM. Over any sequence of scrapes, failed ones included, scrape i reports nothing but kept rows,
      and of those exactly the ones whose thread was not in the last good scrape before it or had a lower count there
      (that of its last row, should it have several); the first good scrape reports all of them. */
  lemma ReportedIff(scrapes: seq<Option<seq<Favorite>>>, i: nat)
    requires i < |scrapes| && scrapes[i].Some?
    ensures var favs := scrapes[i].value;
            var out := Reported(Tracked(scrapes, i), favs, |favs|);
            && (forall k :: 0 <= k < |favs| && favs[k].url != "" && favs[k].title != "" && favs[k].unread != "" ==>
                  (ThreadActivity(favs[k].title, favs[k].url, favs[k].key, favs[k].count) in out
                   <==> NewOrRisen(scrapes, i, favs[k])))
            && (forall a :: a in out ==>
                  exists k :: 0 <= k < |favs| && favs[k].url != "" && favs[k].title != "" && favs[k].unread != ""
                              && a == Activity(favs[k]))
  {
    var favs, tracked := scrapes[i].value, Tracked(scrapes, i);
    ReportedAre(tracked, favs, |favs|);
    hide Reported, Tracked, NewOrRisen;
    forall k | 0 <= k < |favs| && Kept(favs[k])
      ensures Activity(favs[k]) in Reported(tracked, favs, |favs|) <==> NewOrRisen(scrapes, i, favs[k])
    {
      RoseIff(scrapes, i, favs[k]);
    }
  }

  lemma LastRow(favs: seq<Favorite>, k: nat) returns (m: nat)
    requires k < |favs| && Kept(favs[k])
    ensures LastOfThread(favs, m) && favs[m].key == favs[k].key
    decreases |favs| - k
  {
    if j :| k < j < |favs| && Kept(favs[j]) && favs[j].key == favs[k].key {
      m := LastRow(favs, j);
    } else {
      m := k;
    }
  }

  /** What the map says of the thread of row k. */
  lemma CountOfThread(favs: seq<Favorite>, k: nat) returns (m: nat)
    requires k < |favs| && Kept(favs[k])
    ensures LastOfThread(favs, m) && favs[m].key == favs[k].key
    ensures favs[k].key in Counts(favs, |favs|) && Counts(favs, |favs|)[favs[k].key] == favs[m].count
    ensures forall j: nat :: LastOfThread(favs, j) && favs[j].key == favs[k].key ==> j == m
  {
    m := LastRow(favs, k);
    CountsAre(favs, |favs|, favs[k].key);
  }

  ghost predicate NoEarlierHigher(favs: seq<Favorite>) {
    forall k: nat, m: nat :: k < |favs| && Kept(favs[k]) && LastOfThread(favs, m) && favs[m].key == favs[k].key
                             ==> favs[k].count <= favs[m].count
  }

  /** The same page twice: the second time nothing is reported, exactly when no thread has an earlier row with a higher
      count than its last one; so never when the threads are distinct. */
  lemma RepeatReportsNothingIff(favs: seq<Favorite>)
    ensures Reported(Counts(favs, |favs|), favs, |favs|) == [] <==> NoEarlierHigher(favs)
    ensures DistinctThreads(favs) ==> Reported(Counts(favs, |favs|), favs, |favs|) == []
  {
    var n, now := |favs|, Counts(favs, |favs|);
    ReportedAre(now, favs, n);
    hide Counts, Reported;
    forall k: nat | k < n && Kept(favs[k])
      ensures !Rose(now, favs[k]) <==>
              forall m: nat :: LastOfThread(favs, m) && favs[m].key == favs[k].key ==> favs[k].count <= favs[m].count
    {
      var m := CountOfThread(favs, k);
    }
    if DistinctThreads(favs) {
      DistinctHasOneRow(favs);
    }
    hide LastOfThread, DistinctThreads;
  }

  /** A page on which one thread has two rows, 5 unread above 3: seen twice, the row of 5 is reported again. */
  lemma RepeatExample()
    ensures var favs := [Favorite("/a", "A", "5", 1, 5), Favorite("/a", "A", "3", 1, 3)];
            Reported(Counts(favs, 2), favs, 2) == [ThreadActivity("A", "/a", 1, 5)]
  {
    var favs := [Favorite("/a", "A", "5", 1, 5), Favorite("/a", "A", "3", 1, 3)];
    assert Counts(favs, 1) == map[1 := 5];
    assert Counts(favs, 2) == map[1 := 3];
    var now := Counts(favs, 2);
    assert Reported(now, favs, 1) == Reported(now, favs, 0) + [Activity(favs[0])];
  }

  lemma DistinctHasOneRow(favs: seq<Favorite>)
    requires DistinctThreads(favs)
    ensures NoEarlierHigher(favs)
  {
    forall k: nat, m: nat | k < |favs| && Kept(favs[k]) && LastOfThread(favs, m) && favs[m].key == favs[k].key
      ensures k == m
    {
      assert LastOfThread(favs, k);
    }
  }

  /** How many threads the favourites page adds to a push. */
  function Risen(tokens: bool, favs: Option<seq<Favorite>>, before: Bubbles, current: Bubbles, tracked: map<Key, nat>): nat {
    if tokens && favs.Some? && (current.favorites > before.favorites || tracked != map[]) then
      |Reported(tracked, favs.value, |favs.value|)|
    else 0
  }

  /** The push a comparison leads to, if any. */
  function PushFor(c: Client, before: Bubbles, current: Bubbles, risen: nat): Option<PushJob> {
    if Changed(before, current) || risen > 0 then Some(PushJob(c, before, current, risen)) else None
  }

  // ---------- the code's state ----------

  class BubblesPoller {
    var prev: map<Client, Bubbles>
    var prevFav: map<Client, map<Key, nat>>
    var breaker: map<Client, Breaker>
    var gated: set<Client>
    var inflight: set<Client>

    constructor ()
      ensures prev == map[] && prevFav == map[] && breaker == map[] && gated == {} && inflight == {}
    {
      prev, prevFav, breaker, gated, inflight := map[], map[], map[], {}, {};
    }

    function BreakerOf(c: Client): Option<Breaker>
      reads this
    {
      if c in breaker then Some(breaker[c]) else None
    }

    function FavOf(c: Client): map<Key, nat>
      reads this
    {
      if c in prevFav then prevFav[c] else map[]
    }

    /** True when the slot was free and is now taken. */
    method MarkInflight(c: Client) returns (claimed: bool)
      modifies this`inflight
      ensures claimed <==> c !in old(inflight)
      ensures inflight == old(inflight) + {c}
    {
      if c in inflight {
        return false;
      }
      inflight := inflight + {c};
      return true;
    }

    method ClearInflight(c: Client)
      modifies this`inflight
      ensures inflight == old(inflight) - {c}
    {
      inflight := inflight - {c};
    }

    method RecordFailure(c: Client)
      modifies this`breaker
      ensures breaker == old(breaker)[c := Failed(old(BreakerOf(c)))]
    {
      var br := if c in breaker then breaker[c] else Breaker(0, 0);
      br := br.(fails := br.fails + 1);
      var skip, k := 1, 0;
      while k < br.fails && k < 4
        invariant 0 <= k <= 4 && k <= br.fails && skip == Pow2(k)
      {
        skip, k := 2 * skip, k + 1;
      }
      if skip > 16 {
        skip := 16;
      }
      assert Pow2(1) == 2 && Pow2(2) == 4 && Pow2(3) == 8 && Pow2(4) == 16;
      breaker := breaker[c := br.(skip := skip)];
    }

    method RecordSuccess(c: Client)
      modifies this`breaker
      ensures breaker == if c in old(breaker) then old(breaker)[c := Breaker(0, 0)] else old(breaker)
    {
      if c in breaker {
        breaker := breaker[c := Breaker(0, 0)];
      }
    }

    method EnrichFavorites(c: Client, scrape: Option<seq<Favorite>>) returns (out: seq<ThreadActivity>)
      modifies this`prevFav
      ensures scrape.None? ==> out == [] && prevFav == old(prevFav)
      ensures scrape.Some? ==> && out == Reported(old(FavOf(c)), scrape.value, |scrape.value|)
                               && prevFav == old(prevFav)[c := Counts(scrape.value, |scrape.value|)]
    {
      out := [];
      if scrape.None? {
        return;
      }
      var favs := scrape.value;
      var prevMap, newMap := FavOf(c), map[];
      for i := 0 to |favs|
        invariant newMap == Counts(favs, i) && out == Reported(prevMap, favs, i)
      {
        var f := favs[i];
        if f.url == "" || f.title == "" || f.unread == "" {
          continue;
        }
        newMap := newMap[f.key := f.count];
        if f.key !in prevMap || f.count > prevMap[f.key] {
          out := out + [ThreadActivity(f.title, f.url, f.key, f.count)];
        }
      }
      prevFav := prevFav[c := newMap];
    }

    /** checkOne, with what it learns from outside as arguments: whether anyone listens, what the scrape brings, whether
        the client has push tokens, and what the favourites page would show. */
    method CheckOne(c: Client, listening: bool, scrape: Option<Bubbles>, tokens: bool, favs: Option<seq<Favorite>>)
      returns (push: Option<PushJob>)
      modifies this`prev, this`prevFav, this`breaker, this`gated
      ensures var o := if !listening then NobodyListens else if scrape.None? then ScrapeFails else ScrapeOk;
              && BreakerOf(c) == Handled(old(BreakerOf(c)), o)
              && (forall d :: d != c ==> BreakerOf(d) == old(BreakerOf(d)))
              && gated == (if old(Skips(BreakerOf(c))) then old(gated)
                           else match o
                                case NobodyListens => old(gated) + {c}
                                case ScrapeFails => old(gated)
                                case ScrapeOk => old(gated) - {c})
              && prev == (if old(Attempts(BreakerOf(c), o)) && scrape.Some? then old(prev)[c := scrape.value]
                          else old(prev))
      ensures push.Some? ==> && scrape.Some? && c in old(prev) && c !in old(gated)
                             && push.value.client == c && push.value.prev == old(prev)[c]
                             && push.value.current == scrape.value
      ensures var compares := old(Attempts(BreakerOf(c), ScrapeOk)) && listening && scrape.Some? && c in old(prev)
                              && c !in old(gated);
              var looks := compares && tokens && favs.Some?
                           && (scrape.value.favorites > old(prev)[c].favorites || old(FavOf(c)) != map[]);
              && (push.Some? <==> compares && (Changed(old(prev)[c], scrape.value)
                                               || (looks && Reported(old(FavOf(c)), favs.value, |favs.value|) != [])))
              && prevFav == (if looks then old(prevFav)[c := Counts(favs.value, |favs.value|)] else old(prevFav))
              && push == if compares then
                           PushFor(c, old(prev)[c], scrape.value,
                                   Risen(tokens, favs, old(prev)[c], scrape.value, old(FavOf(c))))
                         else None
    {
      push := None;
      if c in breaker && breaker[c].skip > 0 {
        breaker := breaker[c := breaker[c].(skip := breaker[c].skip - 1)];
        return;
      }
      if !listening {
        gated := gated + {c};
        return;
      }
      if scrape.None? {
        RecordFailure(c);
        return;
      }
      RecordSuccess(c);
      var current := scrape.value;
      var wasGated := c in gated;
      gated := gated - {c};
      if c !in prev || wasGated {
        prev := prev[c := current];
        return;
      }
      var before := prev[c];
      var changed := Changed(before, current);
      prev := prev[c := current];
      var trackingFav := FavOf(c) != map[];
      var favThreads := [];
      if tokens && (current.favorites > before.favorites || trackingFav) {
        favThreads := EnrichFavorites(c, favs);
      }
      if changed || |favThreads| > 0 {
        push := Some(PushJob(c, before, current, |favThreads|));
      }
    }
  }

  // ---------- the code's state and the machine ----------

  /** The machine's steps for one job of worker w, from the breaker to the comparison, with nobody in between. */
  function JobSteps(s: System, w: nat, listening: bool, scrape: Option<Bubbles>): System
    requires w < |s.workers| && s.workers[w].Handling?
  {
    if Skips(BreakerOf(s, s.workers[w].client)) then WorkNext(s, w, BreakerSkips)
    else AdmittedSteps(WorkNext(s, w, BreakerAdmits), w, listening, scrape)
  }

  function AdmittedSteps(s: System, w: nat, listening: bool, scrape: Option<Bubbles>): System
    requires w < |s.workers| && s.workers[w].Admitted?
  {
    if !listening then WorkNext(s, w, Gated)
    else
      var s2 := WorkNext(s, w, Ungated);
      if scrape.None? then WorkNext(s2, w, FetchFails)
      else WorkNext(WorkNext(s2, w, FetchOk(scrape.value)), w, Compare)
  }

  lemma SkipStep(s: System, w: nat)
    requires WorkEnabled(s, w, BreakerSkips)
    ensures var c := s.workers[w].client;
            WorkNext(s, w, BreakerSkips)
            == s.(breaker := s.breaker[c := s.breaker[c].(skip := s.breaker[c].skip - 1)],
                  workers := s.workers[w := Finishing(c)])
  {}

  lemma AdmitStep(s: System, w: nat)
    requires WorkEnabled(s, w, BreakerAdmits)
    ensures WorkNext(s, w, BreakerAdmits) == s.(workers := s.workers[w := Admitted(s.workers[w].client)])
  {}

  lemma GateStep(s: System, w: nat)
    requires WorkEnabled(s, w, Gated)
    ensures var c, s' := s.workers[w].client, WorkNext(s, w, Gated);
            s' == s.(gated := s.gated + {c}, history := s'.history, workers := s.workers[w := Finishing(c)])
  {}

  lemma UngateStep(s: System, w: nat)
    requires WorkEnabled(s, w, Ungated)
    ensures WorkNext(s, w, Ungated) == s.(workers := s.workers[w := Scraping(s.workers[w].client)])
  {}

  lemma FailStep(s: System, w: nat)
    requires WorkEnabled(s, w, FetchFails)
    ensures var c := s.workers[w].client;
            WorkNext(s, w, FetchFails)
            == s.(breaker := s.breaker[c := Failed(BreakerOf(s, c))], workers := s.workers[w := Finishing(c)])
  {}

  lemma FetchStep(s: System, w: nat, current: Bubbles)
    requires WorkEnabled(s, w, FetchOk(current))
    ensures var c := s.workers[w].client;
            WorkNext(s, w, FetchOk(current))
            == s.(breaker := if c in s.breaker then s.breaker[c := Breaker(0, 0)] else s.breaker,
                  workers := s.workers[w := Scraped(c, current)])
  {}

  lemma CompareStep(s: System, w: nat)
    requires WorkEnabled(s, w, Compare)
    ensures var c, current, s' := s.workers[w].client, s.workers[w].current, WorkNext(s, w, Compare);
            s' == s.(gated := s.gated - {c}, prev := s.prev[c := current], history := s'.history,
                     workers := s.workers[w := if c in s.prev && c !in s.gated then Comparing(c, s.prev[c], current)
                                               else Finishing(c)])
            && (s'.workers[w].Comparing? ==> EndsCompared(HistoryOf(s', c)))
  {}

  /** The machine after one job, as CheckOne leaves the state and goes on to a push. */
  predicate AfterCheckOne(s: System, s': System, w: nat, c: Client, listening: bool, scrape: Option<Bubbles>)
    requires w < |s.workers|
  {
    var o := if !listening then NobodyListens else if scrape.None? then ScrapeFails else ScrapeOk;
    && BreakerOf(s', c) == Handled(BreakerOf(s, c), o)
    && s'.gated == (if Skips(BreakerOf(s, c)) then s.gated
                    else match o
                         case NobodyListens => s.gated + {c}
                         case ScrapeFails => s.gated
                         case ScrapeOk => s.gated - {c})
    && s'.prev == (if Attempts(BreakerOf(s, c), o) && scrape.Some? then s.prev[c := scrape.value] else s.prev)
    && |s'.workers| == |s.workers|
    && s'.workers[w] == (if Attempts(BreakerOf(s, c), ScrapeOk) && listening && scrape.Some? && c in s.prev
                            && c !in s.gated
                         then Comparing(c, s.prev[c], scrape.value) else Finishing(c))
    && (s'.workers[w].Comparing? ==> EndsCompared(HistoryOf(s', c)))
  }

  lemma AdmittedStepsAre(s: System, w: nat, listening: bool, scrape: Option<Bubbles>)
    requires w < |s.workers| && s.workers[w].Admitted? && !Skips(BreakerOf(s, s.workers[w].client))
    ensures AfterCheckOne(s, AdmittedSteps(s, w, listening, scrape), w, s.workers[w].client, listening, scrape)
  {
    hide WorkNext, Failed, EndsCompared, PollQueueClosed, HistoryOf;
    if !listening {
      GateStep(s, w);
    } else {
      UngateStep(s, w);
      var s2 := WorkNext(s, w, Ungated);
      if scrape.None? {
        FailStep(s2, w);
      } else {
        FetchStep(s2, w, scrape.value);
        CompareStep(WorkNext(s2, w, FetchOk(scrape.value)), w);
      }
    }
  }

  /** The machine does to breaker, gating and last bubbles what CheckOne does. */
  lemma JobStepsAre(s: System, w: nat, listening: bool, scrape: Option<Bubbles>)
    requires w < |s.workers| && s.workers[w].Handling?
    ensures AfterCheckOne(s, JobSteps(s, w, listening, scrape), w, s.workers[w].client, listening, scrape)
  {
    hide AdmittedSteps;
    if Skips(BreakerOf(s, s.workers[w].client)) {
      SkipStep(s, w);
      hide WorkNext;
    } else {
      var s1 := WorkNext(s, w, BreakerAdmits);
      AdmitStep(s, w);
      hide WorkNext;
      AdmittedStepsAre(s1, w, listening, scrape);
    }
  }

  lemma EnrichStep(s: System, w: nat, risen: nat)
    requires w < |s.workers| && s.workers[w].Comparing? && EndsCompared(HistoryOf(s, s.workers[w].client))
    ensures WorkEnabled(s, w, Enrich(risen))
    ensures var pc := s.workers[w];
            NextPc(s, w, Enrich(risen)) == match PushFor(pc.client, pc.prev, pc.current, risen)
                                           case Some(job) => Pushing(pc.client, job)
                                           case None => Finishing(pc.client)
  {
    hide HistoryOf, EndsCompared;
  }

  /** The machine's job and CheckOne agree: on breaker, gating and last bubbles; and where CheckOne compares, the machine
      compares, and whatever the favourites bring it then carries the very push CheckOne returns, or none. */
  lemma JobStepsAreCheckOne(s: System, w: nat, listening: bool, scrape: Option<Bubbles>, risen: nat)
    requires w < |s.workers| && s.workers[w].Handling?
    ensures var c, s' := s.workers[w].client, JobSteps(s, w, listening, scrape);
            && AfterCheckOne(s, s', w, c, listening, scrape)
            && (s'.workers[w].Comparing? ==>
                  && c in s.prev && scrape.Some? && WorkEnabled(s', w, Enrich(risen))
                  && NextPc(s', w, Enrich(risen)) == match PushFor(c, s.prev[c], scrape.value, risen)
                                                     case Some(job) => Pushing(c, job)
                                                     case None => Finishing(c))
  {
    JobStepsAre(s, w, listening, scrape);
    var s' := JobSteps(s, w, listening, scrape);
    hide JobSteps, NextPc, WorkEnabled, HistoryOf, EndsCompared, Handled;
    if s'.workers[w].Comparing? {
      EnrichStep(s', w, risen);
    }
  }
}
