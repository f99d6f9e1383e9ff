/** The circuit breaker over whole runs of the poller: how often one client can be scraped while every scrape fails. */
module PollerBreaker {
  import opened Common
  import opened Poller
  import PollerChain
  import PollerCore
  import PollerStop

  /** Step k is worker w's, in the job of client c. */
  predicate JobStep(ss: seq<System>, ts: seq<Step>, c: Client, k: nat)
    requires k < |ts| && k < |ss|
  {
    ts[k].Work? && ts[k].w < |ss[k].workers| && ClientOf(ss[k].workers[ts[k].w]) == Some(c)
  }

  /** How many jobs of c were handled in steps i .. j - 1: each meets the breaker once. */
  function Jobs(ss: seq<System>, ts: seq<Step>, c: Client, i: nat, j: nat): nat
    requires j <= |ts| && j <= |ss|
  {
    if j <= i then 0
    else Jobs(ss, ts, c, i, j - 1)
         + (if JobStep(ss, ts, c, j - 1) && (ts[j - 1].a.BreakerSkips? || ts[j - 1].a.BreakerAdmits?) then 1 else 0)
  }

  /** How many scrapes of c were begun. */
  function Tries(ss: seq<System>, ts: seq<Step>, c: Client, i: nat, j: nat): nat
    requires j <= |ts| && j <= |ss|
  {
    if j <= i then 0
    else Tries(ss, ts, c, i, j - 1) + (if JobStep(ss, ts, c, j - 1) && ts[j - 1].a.Ungated? then 1 else 0)
  }

  ghost predicate NoSuccess(ss: seq<System>, ts: seq<Step>, c: Client, i: nat, j: nat)
    requires j <= |ts| && j <= |ss|
  {
    forall k: nat :: i <= k < j && ts[k].Work? && ts[k].a.FetchOk? ==> !JobStep(ss, ts, c, k)
  }

  // ---------- the price of an attempt ----------

  function Fails(b: Option<Breaker>): nat { if b.Some? then b.value.fails else 0 }

  function Skip(b: Option<Breaker>): nat { if b.Some? then b.value.skip else 0 }

  /** n jobs have paid for a attempts: between jobs, when admitted, and while scraping. */
  predicate Paid(b: Option<Breaker>, n: nat, a: nat) {
    && Fails(b) >= a && n + Skip(b) >= a + PollerCore.Imposed(a)
    && (a > 0 ==> n >= a + PollerCore.Imposed(a - 1))
  }

  predicate PaidAt(pc: Worker, b: Option<Breaker>, n: nat, a: nat) {
    match pc
    case Admitted(_) => Skip(b) == 0 && Fails(b) >= a && n >= 1 + a + PollerCore.Imposed(a)
    case Scraping(_) => Skip(b) == 0 && a > 0 && Fails(b) >= a - 1 && n >= a + PollerCore.Imposed(a - 1)
    case _ => Paid(b, n, a)
  }

  ghost predicate Account(s: System, c: Client, n: nat, a: nat) {
    && (forall w: nat :: Holds(s, w, c) ==> PaidAt(s.workers[w], BreakerOf(s, c), n, a))
    && (!Held(s, c) ==> Paid(BreakerOf(s, c), n, a))
  }

  lemma FailurePays(b: Option<Breaker>, n: nat, t: nat)
    requires Skip(b) == 0 && t > 0 && Fails(b) >= t - 1 && n >= t + PollerCore.Imposed(t - 1)
    ensures Paid(Some(Failed(b)), n, t)
  {
    PollerCore.SkipsAfterGrows(t, Fails(b) + 1);
    assert Failed(b) == Breaker(Fails(b) + 1, PollerCore.SkipsAfter(Fails(b) + 1));
    assert PollerCore.Imposed(t) == PollerCore.Imposed(t - 1) + PollerCore.SkipsAfter(t);
  }

  lemma GatePays(b: Option<Breaker>, n: nat, t: nat)
    requires Fails(b) >= t && n >= 1 + t + PollerCore.Imposed(t)
    ensures Paid(b, n, t)
  {
    if t > 0 {
      assert PollerCore.Imposed(t) == PollerCore.Imposed(t - 1) + PollerCore.SkipsAfter(t);
    }
  }

  lemma PayStep(s: System, w: nat, a: Action, c: Client, n: nat, t: nat)
    requires WorkEnabled(s, w, a) && !a.Take? && !a.FetchOk? && ClientOf(s.workers[w]) == Some(c)
    requires PaidAt(s.workers[w], BreakerOf(s, c), n, t)
    ensures var n' := if a.BreakerSkips? || a.BreakerAdmits? then n + 1 else n;
            var t' := if a.Ungated? then t + 1 else t;
            PaidAt(NextPc(s, w, a), BreakerOf(Shared(s, w, a), c), n', t')
  {
    var b := BreakerOf(s, c);
    hide PollerCore.Imposed, PollerCore.SkipsAfter, Pow2, Changed, Rebaselines, HistoryOf, PushFieldNil, PushQueueClosed;
    if a.FetchFails? {
      FailurePays(b, n, t);
      assert BreakerOf(Shared(s, w, a), c) == Some(Failed(b));
      hide Shared, Failed, Paid;
    } else {
      BreakerAfter(s, w, a, c);
      hide Shared;
      if a.Gated? {
        GatePays(b, n, t);
        hide Paid;
      }
    }
  }

  lemma BreakerAfter(s: System, w: nat, a: Action, c: Client)
    requires WorkEnabled(s, w, a) && !a.FetchFails? && !a.FetchOk? && ClientOf(s.workers[w]) == Some(c)
    ensures BreakerOf(Shared(s, w, a), c) == if a.BreakerSkips? then Some(Breaker(Fails(BreakerOf(s, c)), Skip(BreakerOf(s, c)) - 1))
                                             else BreakerOf(s, c)
  {
    hide Decide, Changed, Failed, HistoryOf, PushFieldNil, PushQueueClosed, EndsCompared, PollQueueClosed;
  }

  lemma OtherBreaker(s: System, w: nat, a: Action, c: Client)
    requires WorkEnabled(s, w, a) && ClientOf(s.workers[w]) != Some(c)
    ensures BreakerOf(WorkNext(s, w, a), c) == BreakerOf(s, c)
  {
    hide Decide, Changed, Failed, HistoryOf, PushFieldNil, PushQueueClosed, EndsCompared, PollQueueClosed, NextPc;
  }

  // ---------- one step of the system ----------

  lemma OwnPays(s: System, w: nat, a: Action, c: Client, n: nat, t: nat)
    requires Slots(s) && Account(s, c, n, t) && WorkEnabled(s, w, a) && !a.Take? && !a.FetchOk? && Holds(s, w, c)
    ensures var n' := if a.BreakerSkips? || a.BreakerAdmits? then n + 1 else n;
            var t' := if a.Ungated? then t + 1 else t;
            Account(WorkNext(s, w, a), c, n', t')
  {
    PayStep(s, w, a, c, n, t);
    SharedFrame(s, w, a);
    PollerChain.NextClient(s, w, a);
    var s1, pc', s' := Shared(s, w, a), NextPc(s, w, a), WorkNext(s, w, a);
    assert s' == s1.(workers := s.workers[w := pc']) && |s'.workers| == |s.workers|;
    assert BreakerOf(s', c) == BreakerOf(s1, c);
    assert ClientOf(pc') == None ==> !pc'.Admitted? && !pc'.Scraping?;
    hide Shared, NextPc, WorkNext, WorkEnabled, BreakerOf, Paid;
    PollerChain.OnlyHolder(s, s', w, pc', c);
    hide Slots, Holds, Held;
  }

  lemma OtherPays(s: System, w: nat, a: Action, c: Client, n: nat, t: nat)
    requires Account(s, c, n, t) && WorkEnabled(s, w, a)
    requires ClientOf(s.workers[w]) != Some(c) && ClientOf(NextPc(s, w, a)) != Some(c)
    ensures Account(WorkNext(s, w, a), c, n, t)
  {
    PollerChain.OtherClient(s, w, a, c);
    OtherBreaker(s, w, a, c);
    hide WorkNext, PaidAt, Paid, BreakerOf;
  }

  lemma TakePays(s: System, w: nat, c: Client, n: nat, t: nat)
    requires Slots(s) && Account(s, c, n, t) && WorkEnabled(s, w, Take) && c == s.pollQ[0]
    ensures Account(WorkNext(s, w, Take), c, n, t)
  {
    var s' := WorkNext(s, w, Take);
    assert !Held(s, c);
    assert s' == s.(pollQ := s.pollQ[1..], workers := s.workers[w := Taken(c)]);
    hide WorkNext, Paid;
    assert Holds(s', w, c);
    forall v: nat | Holds(s', v, c)
      ensures v == w
    {
      assert v != w ==> Holds(s, v, c);
      assert v != w ==> Held(s, c);
    }
  }

  lemma SamePays(s: System, s': System, c: Client, n: nat, t: nat)
    requires Account(s, c, n, t) && s'.workers == s.workers && s'.breaker == s.breaker
    ensures Account(s', c, n, t)
  {
    SameWorkersHeld(s, s');
    hide PaidAt, Paid;
  }

  lemma WorkPays(s: System, w: nat, a: Action, c: Client, n: nat, t: nat)
    requires Slots(s) && Account(s, c, n, t) && WorkEnabled(s, w, a)
    requires ClientOf(s.workers[w]) == Some(c) ==> !a.FetchOk?
    ensures var own := ClientOf(s.workers[w]) == Some(c);
            var n' := if own && (a.BreakerSkips? || a.BreakerAdmits?) then n + 1 else n;
            var t' := if own && a.Ungated? then t + 1 else t;
            Account(WorkNext(s, w, a), c, n', t')
  {
    hide Account, Slots;
    if ClientOf(s.workers[w]) == Some(c) {
      assert Holds(s, w, c);
      assert !a.Take?;
      hide WorkEnabled, WorkNext;
      OwnPays(s, w, a, c, n, t);
    } else if a.Take? && s.pollQ[0] == c {
      hide WorkNext;
      TakePays(s, w, c, n, t);
    } else {
      if !a.Take? {
        PollerChain.NextClient(s, w, a);
      }
      assert ClientOf(NextPc(s, w, a)) != Some(c);
      hide WorkNext, NextPc, WorkEnabled;
      OtherPays(s, w, a, c, n, t);
    }
  }

  lemma StepPays(s: System, x: Step, c: Client, n: nat, t: nat)
    requires Slots(s) && Account(s, c, n, t) && Enabled(s, x)
    requires x.Work? && ClientOf(s.workers[x.w]) == Some(c) ==> !x.a.FetchOk?
    ensures var own := x.Work? && ClientOf(s.workers[x.w]) == Some(c);
            var n' := if own && (x.a.BreakerSkips? || x.a.BreakerAdmits?) then n + 1 else n;
            var t' := if own && x.a.Ungated? then t + 1 else t;
            Account(Next(s, x), c, n', t')
  {
    hide Account, Slots, TickNextState, TickEnabled, WorkNext, PushNext, StopNext;
    match x {
      case Work(w, a) => WorkPays(s, w, a, c, n, t);
      case Check(tick) =>
        PollerStop.TickFrame(s, tick);
        SamePays(s, TickNextState(s, tick), c, n, t);
      case Stopping(y) =>
        StopFrame(s, y);
        SamePays(s, StopNext(s, y), c, n, t);
      case Push(p, y) =>
        PushFrame(s, p, y);
        SamePays(s, PushNext(s, p, y), c, n, t);
    }
  }

  lemma StopFrame(s: System, y: StopStep)
    ensures StopNext(s, y).workers == s.workers && StopNext(s, y).breaker == s.breaker
  {}

  lemma PushFrame(s: System, p: nat, y: PushStep)
    requires PushEnabled(s, p, y)
    ensures PushNext(s, p, y).workers == s.workers && PushNext(s, p, y).breaker == s.breaker
  {}

  lemma {:induction false} AccountAlways(ss: seq<System>, ts: seq<Step>, c: Client, i: nat, j: nat)
    requires Execution(ss, ts) && i <= j < |ss| && !Held(ss[i], c) && NoSuccess(ss, ts, c, i, j)
    ensures Account(ss[j], c, Jobs(ss, ts, c, i, j), Tries(ss, ts, c, i, j))
    decreases j - i
  {
    hide Next, Enabled, Account, Slots;
    if i < j {
      AccountAlways(ss, ts, c, i, j - 1);
      StepAt(ss, ts, j - 1);
      SlotsAlways(ss, ts, j - 1);
      var s, x := ss[j - 1], ts[j - 1];
      assert x.Work? ==> x.w < |s.workers| by {
        WorkerExists(s, x);
      }
      assert x.Work? && x.a.FetchOk? ==> !JobStep(ss, ts, c, j - 1);
      hide Execution, NoSuccess;
      StepPays(s, x, c, Jobs(ss, ts, c, i, j - 1), Tries(ss, ts, c, i, j - 1));
    } else {
      NothingPaid(ss[i], c);
    }
  }

  lemma WorkerExists(s: System, x: Step)
    requires Enabled(s, x)
    ensures x.Work? ==> x.w < |s.workers|
  {}

  lemma NothingPaid(s: System, c: Client)
    requires !Held(s, c)
    ensures Account(s, c, 0, 0)
  {
    assert PollerCore.Imposed(0) == 0;
    if w: nat :| Holds(s, w, c) {
      assert false;
    }
  }

  lemma PaidBound(n: nat, a: nat)
    requires a > 0 ==> n >= a + PollerCore.Imposed(a - 1)
    ensures a <= 3 + n / 17
  {
    if a > 3 {
      PollerCore.ImposedIs(a - 1);
    }
  }

  /** THE BREAKER IN THE RUNNING SYSTEM. In every interleaving, over any stretch that begins between two jobs of client c
      and in which no scrape of c succeeds, n handled jobs of c begin at most 3 + n / 17 scrapes. */
  lemma ScrapesBounded(ss: seq<System>, ts: seq<Step>, c: Client, i: nat, j: nat)
    requires Execution(ss, ts) && i <= j < |ss| && !Held(ss[i], c) && NoSuccess(ss, ts, c, i, j)
    ensures Tries(ss, ts, c, i, j) <= 3 + Jobs(ss, ts, c, i, j) / 17
  {
    AccountAlways(ss, ts, c, i, j);
    var n, a := Jobs(ss, ts, c, i, j), Tries(ss, ts, c, i, j);
    if w: nat :| Holds(ss[j], w, c) {
      assert PaidAt(ss[j].workers[w], BreakerOf(ss[j], c), n, a);
      if ss[j].workers[w].Admitted? && a > 0 {
        assert PollerCore.Imposed(a) == PollerCore.Imposed(a - 1) + PollerCore.SkipsAfter(a);
      }
    }
    PaidBound(n, a);
  }
}
