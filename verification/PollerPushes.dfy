/** The push jobs of one client over whole runs: chains that start at a baseline, deltas that telescope, and no push across
    a gated gap. */
module PollerPushes {
  import opened Common
  import opened Poller
  import opened PollerChain
  import PollerStop
  import PollerTicks

  function Minus(a: Bubbles, b: Bubbles): Bubbles {
    Bubbles(a.messages - b.messages, a.notifications - b.notifications, a.favorites - b.favorites)
  }

  function Plus(a: Bubbles, b: Bubbles): Bubbles {
    Bubbles(a.messages + b.messages, a.notifications + b.notifications, a.favorites + b.favorites)
  }

  /** What the pushes together told the client: the sum of current - prev, counter by counter. */
  function Told(ps: seq<Pair>): Bubbles {
    if ps == [] then Bubbles(0, 0, 0) else Plus(Told(ps[..|ps| - 1]), Minus(ps[|ps| - 1].1, ps[|ps| - 1].0))
  }

  /** The pushes among records lo .. hi - 1. */
  function PushedIn(h: seq<Record>, lo: nat, hi: nat): seq<Pair>
    requires hi <= |h|
  {
    if hi <= lo then []
    else PushedIn(h, lo, hi - 1)
         + (var r := h[hi - 1]; if r.Compared? && r.decision.Pushed? then [(r.prev, r.current)] else [])
  }

  /** From a to b, each push starting where the one before it ended. */
  ghost predicate Chain(a: Bubbles, ps: seq<Pair>, b: Bubbles) {
    if ps == [] then a == b
    else ps[0].0 == a && ps[|ps| - 1].1 == b && forall k :: 0 < k < |ps| ==> ps[k].0 == ps[k - 1].1
  }

  /** Records b .. q: a baseline followed by comparisons only, all of them decided. */
  ghost predicate Stretch(h: seq<Record>, b: nat, q: nat) {
    && b <= q < |h| && h[b].Base?
    && forall k :: b < k <= q ==> h[k].Compared? && Decided(h[k])
  }

  lemma {:induction false} StretchChains(h: seq<Record>, b: nat, q: nat)
    requires Linked(h) && Stretch(h, b, q)
    ensures Chain(h[b].current, PushedIn(h, b + 1, q + 1), h[q].current)
    decreases q
  {
    if b < q {
      StretchChains(h, b, q - 1);
      assert Continues(h, q);
    }
  }

  lemma {:induction false} ChainTelescopes(a: Bubbles, ps: seq<Pair>, b: Bubbles)
    requires Chain(a, ps, b)
    ensures Told(ps) == Minus(b, a)
  {
    if ps != [] {
      var n := |ps| - 1;
      ChainTelescopes(a, ps[..n], ps[n].0);
    }
  }

  /** Every comparison hangs on a baseline with no gated tick since. */
  lemma {:induction false} BaselineOf(h: seq<Record>, q: nat) returns (b: nat)
    requires Linked(h) && q < |h| && !h[q].Gate? && (forall k :: 0 <= k <= q ==> Decided(h[k]))
    ensures Stretch(h, b, q)
  {
    if h[q].Base? {
      b := q;
    } else {
      assert Continues(h, q);
      b := BaselineOf(h, q - 1);
    }
  }

  lemma {:induction false} PushedInAll(h: seq<Record>, n: nat)
    requires n <= |h|
    ensures PushedIn(h, 0, n) == Pushes(h[..n])
  {
    if n > 0 {
      PushedInAll(h, n - 1);
      assert h[..n][..n - 1] == h[..n - 1];
    }
  }

  // ---------- the code's view: what was handed to enqueuePush ----------

  /** THE CHAIN THEOREM. In every interleaving of ticks and workers: what was handed to enqueuePush for client c is, in
      order, what its history says was to be pushed, except that the worker holding c may still have its last job in
      hand; and from every baseline on, until the next gated tick or baseline, each job's prev is the current of the job
      before it (unpushed comparisons changed nothing) and the deltas add up to last minus baseline. */
  lemma PushesFormChains(ss: seq<System>, ts: seq<Step>, i: nat, c: Client, b: nat, q: nat)
    requires Execution(ss, ts) && i < |ss| && Stretch(HistoryOf(ss[i], c), b, q)
    ensures var h, sub := HistoryOf(ss[i], c), SubmittedOf(ss[i].submitted, c);
            && Chain(h[b].current, PushedIn(h, b + 1, q + 1), h[q].current)
            && Told(PushedIn(h, b + 1, q + 1)) == Minus(h[q].current, h[b].current)
            && sub <= Pushes(h) && |Pushes(h)| <= |sub| + 1 && (!Held(ss[i], c) ==> sub == Pushes(h))
  {
    var h := HistoryOf(ss[i], c);
    ChainedAlways(ss, ts, i);
    assert Remembered(ss[i], c) && Accounted(ss[i], c);
    StretchChains(h, b, q);
    ChainTelescopes(h[b].current, PushedIn(h, b + 1, q + 1), h[q].current);
    hide Linked, Stretch, Chain, Told, PushedIn, Execution;
    SubmittedPrefix(ss[i], c);
  }

  lemma SubmittedPrefix(s: System, c: Client)
    requires Accounted(s, c)
    ensures var h, sub := HistoryOf(s, c), SubmittedOf(s.submitted, c);
            sub <= Pushes(h) && |Pushes(h)| <= |sub| + 1 && (!Held(s, c) ==> sub == Pushes(h))
  {
    if w: nat :| Holds(s, w, c) {
      var h := HistoryOf(s, c);
      assert Owing(s.workers[w], h, SubmittedOf(s.submitted, c));
      if s.workers[w].Comparing? {
        assert h == h[..|h| - 1] + [h[|h| - 1]];
        PushesSnoc(h[..|h| - 1], h[|h| - 1]);
      }
    }
  }

  /** NO PUSH SPANS A GAP. The prev of a pushed job is the current of the record right before it, which is neither a gated
      tick nor older than the last baseline; and what the next scrape will be compared with is what the last one
      brought. */
  lemma NoPushSpansAGap(ss: seq<System>, ts: seq<Step>, i: nat, c: Client, q: nat)
    requires Execution(ss, ts) && i < |ss| && q < |HistoryOf(ss[i], c)| && HistoryOf(ss[i], c)[q].Compared?
    requires forall k :: 0 <= k <= q ==> Decided(HistoryOf(ss[i], c)[k])
    ensures var h := HistoryOf(ss[i], c);
            && q > 0 && !h[q - 1].Gate? && h[q - 1].current == h[q].prev
            && (exists b: nat :: b < q && Stretch(h, b, q))
            && c in ss[i].prev && Known(h) == Some(ss[i].prev[c])
  {
    var h := HistoryOf(ss[i], c);
    ChainedAlways(ss, ts, i);
    assert Remembered(ss[i], c);
    assert Continues(h, q);
    var b := BaselineOf(h, q);
    assert b < q && Stretch(h, b, q);
    hide Linked, Stretch, Execution;
    KnownNow(h, q);
  }

  lemma {:induction false} KnownNow(h: seq<Record>, q: nat)
    requires q < |h| && !h[q].Gate?
    ensures Known(h).Some?
  {
    if q < |h| - 1 && h[|h| - 1].Gate? {
      KnownNow(h[..|h| - 1], q);
    }
  }

  /** A gated tick ends the stretch: the next scrape is a baseline and is pushed to nobody. */
  lemma AfterAGateComesABaseline(ss: seq<System>, ts: seq<Step>, i: nat, c: Client, k: nat)
    requires Execution(ss, ts) && i < |ss| && k + 1 < |HistoryOf(ss[i], c)| && HistoryOf(ss[i], c)[k].Gate?
    ensures !HistoryOf(ss[i], c)[k + 1].Compared?
  {
    ChainedAlways(ss, ts, i);
    assert Remembered(ss[i], c);
    assert Continues(HistoryOf(ss[i], c), k + 1);
  }

  /** In every reachable state a worker that compares finds its comparison in the history, so NoWorkerStuck applies. */
  lemma RecordedAlways(ss: seq<System>, ts: seq<Step>, i: nat)
    requires Execution(ss, ts) && i < |ss|
    ensures PollerStop.Recorded(ss[i])
  {
    ChainedAlways(ss, ts, i);
    RecordedNow(ss[i]);
  }

  lemma RecordedNow(s: System)
    requires Chained(s)
    ensures PollerStop.Recorded(s)
  {
    forall w | 0 <= w < |s.workers| && s.workers[w].Comparing?
      ensures EndsCompared(HistoryOf(s, s.workers[w].client))
    {
      var c := s.workers[w].client;
      assert Accounted(s, c) && Holds(s, w, c);
    }
  }

  // ---------- the code's view: what the push queue took ----------

  function Taken(js: seq<Submission>): seq<PushJob> {
    if js == [] then [] else Taken(js[..|js| - 1]) + (if js[|js| - 1].ok then [js[|js| - 1].job] else [])
  }

  lemma TakenSnoc(js: seq<Submission>, j: Submission)
    ensures Taken(js + [j]) == Taken(js) + (if j.ok then [j.job] else [])
  {
    assert (js + [j])[..|js|] == js;
  }

  lemma AcceptedWork(s: System, w: nat, a: Action)
    requires s.accepted == Taken(s.submitted) && WorkEnabled(s, w, a)
    ensures WorkNext(s, w, a).accepted == Taken(WorkNext(s, w, a).submitted)
  {
    SharedFrame(s, w, a);
    if a.ReadPushCh? || a.SendPush? {
      TakenSnoc(s.submitted, Submission(s.workers[w].job, a.SendPush? && |s.pushQ| < PUSH_QUEUE_SIZE));
    } else {
      assert TouchesData(a) ==> a.Gated? || a.Compare? || a.Enrich?;
      SubmittedKept(s, w, a);
      hide Shared;
    }
    hide Taken, PushFieldNil, PushQueueClosed;
  }

  lemma SubmittedKept(s: System, w: nat, a: Action)
    requires WorkEnabled(s, w, a) && !a.ReadPushCh? && !a.SendPush?
    ensures WorkNext(s, w, a).submitted == s.submitted
  {
    hide Decide, Changed, Failed, BreakerOf, NextPc;
    if !TouchesData(a) {
      LeavesData(s, w, a);
      hide WorkNext, Shared;
    }
  }

  /** The push queue takes the submitted jobs in order, leaving out just those that found no channel or no room: with
      nothing left out, PushesFormChains speaks about the delivered jobs too. */
  lemma {:induction false} AcceptedAreSubmitted(ss: seq<System>, ts: seq<Step>, i: nat)
    requires Execution(ss, ts) && i < |ss|
    ensures ss[i].accepted == Taken(ss[i].submitted)
  {
    hide Next, Enabled, Taken;
    if i > 0 {
      StepAt(ss, ts, i - 1);
      AcceptedAreSubmitted(ss, ts, i - 1);
      AcceptedStep(ss[i - 1], ts[i - 1]);
    } else {
      assert Taken([]) == [] by {
        NothingTaken();
      }
    }
  }

  lemma NothingTaken()
    ensures Taken([]) == []
  {}

  lemma AcceptedStep(s: System, t: Step)
    requires s.accepted == Taken(s.submitted) && Enabled(s, t)
    ensures Next(s, t).accepted == Taken(Next(s, t).submitted)
  {
    hide Taken, TickNextState, TickEnabled, WorkNext, WorkEnabled, PushNext, PushEnabled;
    match t {
      case Work(w, a) => AcceptedWork(s, w, a);
      case Check(tick) => PollerStop.TickFrame(s, tick);
      case Stopping(x) =>
      case Push(p, y) => PushFrame(s, p, y);
    }
  }

  lemma PushFrame(s: System, p: nat, y: PushStep)
    requires PushEnabled(s, p, y)
    ensures var s' := PushNext(s, p, y); s' == s.(pushQ := s'.pushQ, taken := s'.taken, pushers := s'.pushers)
  {}

  // ---------- who is told, and who is not ----------

  /** Something rose or changed. */
  predicate WorthTelling(job: PushJob) { job.prev != job.current || job.favRose > 0 }

  ghost predicate NoIdleJob(s: System) {
    && (forall w :: 0 <= w < |s.workers| && (s.workers[w].Pushing? || s.workers[w].Sending?) ==>
          WorthTelling(s.workers[w].job))
    && (forall k :: 0 <= k < |s.submitted| ==> WorthTelling(s.submitted[k].job))
  }

  lemma SubmittedWork(s: System, w: nat, a: Action)
    requires WorkEnabled(s, w, a) && (a.ReadPushCh? || a.SendPush?)
    ensures var s', pc := WorkNext(s, w, a), s.workers[w];
            && (pc.Pushing? || pc.Sending?)
            && s'.workers == s.workers[w := s'.workers[w]]
            && (s'.workers[w].Pushing? || s'.workers[w].Sending? ==> s'.workers[w].job == pc.job)
            && (s'.submitted == s.submitted
                || (s'.submitted == s.submitted + [Submission(pc.job, true)] && |s.pushQ| < 4096
                    && s'.pushQ == s.pushQ + [pc.job] && s'.accepted == s.accepted + [pc.job])
                || (s'.submitted == s.submitted + [Submission(pc.job, false)] && s'.pushQ == s.pushQ
                    && s'.accepted == s.accepted && (PushFieldNil(s) || |s.pushQ| >= 4096)))
  {}

  /** Which worker steps lead to a push, and with what. */
  lemma EnrichDecides(s: System, w: nat, favRose: nat)
    requires WorkEnabled(s, w, Enrich(favRose))
    ensures var Comparing(c, prev, current) := s.workers[w];
            NextPc(s, w, Enrich(favRose))
            == if prev != current || favRose > 0 then Pushing(c, PushJob(c, prev, current, favRose)) else Finishing(c)
  {}

  lemma OtherWork(s: System, w: nat, a: Action)
    requires WorkEnabled(s, w, a) && !a.ReadPushCh? && !a.SendPush? && !a.Enrich?
    ensures !NextPc(s, w, a).Pushing? && !NextPc(s, w, a).Sending?
  {}

  lemma NoIdleWork(s: System, w: nat, a: Action)
    requires NoIdleJob(s) && WorkEnabled(s, w, a)
    ensures NoIdleJob(WorkNext(s, w, a))
  {
    var s' := WorkNext(s, w, a);
    if a.ReadPushCh? || a.SendPush? {
      SubmittedWork(s, w, a);
      hide WorkNext, WorkEnabled;
      assert w < |s.workers|;
    } else {
      SubmittedKept(s, w, a);
      if a.Enrich? {
        EnrichDecides(s, w, a.favRose);
      } else {
        OtherWork(s, w, a);
      }
      SharedFrame(s, w, a);
      assert s'.workers == s.workers[w := NextPc(s, w, a)];
      hide Shared, NextPc, WorkNext;
    }
  }

  lemma NoIdleStep(s: System, t: Step)
    requires NoIdleJob(s) && Enabled(s, t)
    ensures NoIdleJob(Next(s, t))
  {
    hide TickNextState, TickEnabled, WorkNext, WorkEnabled, PushNext, PushEnabled, WorthTelling;
    match t {
      case Work(w, a) =>
        hide NoIdleJob;
        NoIdleWork(s, w, a);
      case Check(tick) => PollerStop.TickFrame(s, tick);
      case Stopping(x) =>
      case Push(p, y) => PushFrame(s, p, y);
    }
  }

  /** NOBODY IS TOLD NOTHING. In every run, what is handed to enqueuePush says that a counter changed or a favourite rose. */
  lemma {:induction false} OnlyNewsIsPushed(ss: seq<System>, ts: seq<Step>, i: nat, k: nat)
    requires Execution(ss, ts) && i < |ss| && k < |ss[i].submitted|
    ensures var job := ss[i].submitted[k].job; job.prev != job.current || job.favRose > 0
  {
    NoIdleAlways(ss, ts, i);
    assert WorthTelling(ss[i].submitted[k].job);
  }

  lemma {:induction false} NoIdleAlways(ss: seq<System>, ts: seq<Step>, i: nat)
    requires Execution(ss, ts) && i < |ss|
    ensures NoIdleJob(ss[i])
  {
    hide Next, Enabled, NoIdleJob;
    if i > 0 {
      StepAt(ss, ts, i - 1);
      NoIdleAlways(ss, ts, i - 1);
      NoIdleStep(ss[i - 1], ts[i - 1]);
    } else {
      NoIdleAtFirst(ss[0]);
    }
  }

  lemma NoIdleAtFirst(s: System)
    requires Init(s)
    ensures NoIdleJob(s)
  {}

  /** A JOB IS DROPPED ONLY WHEN IT MUST BE. A step that hands a job to enqueuePush appends it to the push queue, unless
      there is no channel any more or 4096 jobs are in it; no other step makes that queue longer. */
  lemma {:induction false} DroppedOnlyWhenFull(ss: seq<System>, ts: seq<Step>, i: nat)
    requires Execution(ss, ts) && i < |ts|
    ensures var s, s' := ss[i], ss[i + 1];
            && (s'.submitted == s.submitted || |s'.submitted| == |s.submitted| + 1)
            && (s'.submitted != s.submitted ==>
                  var x := s'.submitted[|s.submitted|];
                  && s'.submitted == s.submitted + [x]
                  && (x.ok ==> s'.pushQ == s.pushQ + [x.job])
                  && (!x.ok ==> s'.pushQ == s.pushQ && (PushFieldNil(s) || |s.pushQ| == 4096)))
            && (s'.submitted == s.submitted ==> |s'.pushQ| <= |s.pushQ|)
  {
    StepAt(ss, ts, i);
    PollerTicks.BoundedAlways(ss, ts, i);
    hide TickNextState, TickEnabled, WorkNext, WorkEnabled, PushNext, PushEnabled, PushFieldNil;
    var s := ss[i];
    match ts[i] {
      case Work(w, a) => HandedOver(s, w, a);
      case Check(tick) => PollerStop.TickFrame(s, tick);
      case Stopping(x) =>
      case Push(p, y) =>
        PushFrame(s, p, y);
        Shorter(s, p, y);
    }
  }

  lemma Shorter(s: System, p: nat, y: PushStep)
    requires PushEnabled(s, p, y)
    ensures |PushNext(s, p, y).pushQ| <= |s.pushQ|
  {}

  lemma HandedOver(s: System, w: nat, a: Action)
    requires WorkEnabled(s, w, a)
    ensures var s' := WorkNext(s, w, a);
            || (s'.submitted == s.submitted && s'.pushQ == s.pushQ)
            || (exists job :: s'.submitted == s.submitted + [Submission(job, true)] && |s.pushQ| < 4096
                              && s'.pushQ == s.pushQ + [job])
            || (exists job :: s'.submitted == s.submitted + [Submission(job, false)] && s'.pushQ == s.pushQ
                              && (PushFieldNil(s) || |s.pushQ| >= 4096))
  {
    if a.ReadPushCh? || a.SendPush? {
      SubmittedWork(s, w, a);
    } else {
      SubmittedKept(s, w, a);
      SharedFrame(s, w, a);
      hide Shared, NextPc;
    }
  }

  // ---------- delivery ----------

  function InHand(p: Pusher): multiset<PushJob> { if p.Delivering? then multiset{p.job} else multiset{} }

  /** The jobs that push workers have in hand. */
  function InHands(ps: seq<Pusher>): multiset<PushJob> {
    if ps == [] then multiset{} else InHands(ps[..|ps| - 1]) + InHand(ps[|ps| - 1])
  }

  /** The jobs that were sent out, by the webhook, ntfy and FCM calls of a push worker. */
  function Delivered(ss: seq<System>, ts: seq<Step>, n: nat): multiset<PushJob>
    requires n < |ss| == |ts| + 1
  {
    if n == 0 then multiset{}
    else
      var s, t := ss[n - 1], ts[n - 1];
      Delivered(ss, ts, n - 1)
      + (if t.Push? && t.y.Deliver? && t.p < |s.pushers| then InHand(s.pushers[t.p]) else multiset{})
  }

  /** One more on both sides. */
  lemma AddBoth(a: multiset<PushJob>, x: multiset<PushJob>, b: multiset<PushJob>, y: multiset<PushJob>, l: multiset<PushJob>)
    requires a + x == b + y
    ensures (a + l) + x == (b + l) + y && (a + x) + l == (b + l) + y
  {
    forall e: PushJob
      ensures ((a + l) + x)[e] == ((a + x) + l)[e] == ((b + l) + y)[e]
    {
      assert (a + x)[e] == (b + y)[e];
    }
  }

  lemma {:induction false} HandsUpdate(ps: seq<Pusher>, p: nat, x: Pusher)
    requires p < |ps|
    ensures InHands(ps[p := x]) + InHand(ps[p]) == InHands(ps) + InHand(x)
  {
    hide InHand;
    var n, qs := |ps| - 1, ps[p := x];
    if p < n {
      HandsUpdate(ps[..n], p, x);
      assert qs[..n] == ps[..n][p := x] && qs[n] == ps[n];
      AddBoth(InHands(qs[..n]), InHand(ps[p]), InHands(ps[..n]), InHand(x), InHand(ps[n]));
    } else {
      assert qs[..n] == ps[..n];
      AddBoth(InHands(ps[..n]), InHand(x), InHands(ps[..n]), InHand(x), InHand(ps[n]));
    }
    assert InHands(qs) == InHands(qs[..n]) + InHand(qs[n]) && InHands(ps) == InHands(ps[..n]) + InHand(ps[n]);
  }

  /** One hand is emptied and one is filled. */
  lemma Balance(done: multiset<PushJob>, hands: multiset<PushJob>, out: multiset<PushJob>, hands': multiset<PushJob>,
                taken: multiset<PushJob>)
    requires hands' + out == hands + taken
    ensures (done + out) + hands' == (done + hands) + taken
  {
    forall e: PushJob
      ensures ((done + out) + hands')[e] == ((done + hands) + taken)[e]
    {
      assert (hands' + out)[e] == (hands + taken)[e];
    }
  }

  lemma {:induction false} NoHands(ps: seq<Pusher>)
    requires forall p :: 0 <= p < |ps| ==> !ps[p].Delivering?
    ensures InHands(ps) == multiset{}
  {
    if ps != [] {
      NoHands(ps[..|ps| - 1]);
    }
  }

  /** What a step of another part leaves of the push workers. */
  lemma PushersStay(s: System, t: Step)
    requires Enabled(s, t) && !t.Push?
    ensures Next(s, t).pushers == s.pushers && Next(s, t).taken == s.taken
  {
    match t {
      case Work(w, a) =>
        SharedFrame(s, w, a);
        hide Shared, NextPc, WorkEnabled;
      case Check(tick) =>
        PollerStop.TickFrame(s, tick);
        hide TickNextState, TickEnabled;
      case Stopping(x) =>
    }
  }

  lemma PushStepIs(s: System, p: nat, y: PushStep)
    requires PushEnabled(s, p, y)
    ensures var s' := PushNext(s, p, y);
            && s'.pushers == s.pushers[p := s'.pushers[p]]
            && (!y.Deliver? ==> InHand(s.pushers[p]) == multiset{})
            && multiset(s'.taken) == multiset(s.taken) + InHand(s'.pushers[p])
  {
    hide PushFieldNil, PushQueueClosed;
  }

  lemma {:induction false} TakenAreDelivered(ss: seq<System>, ts: seq<Step>, n: nat)
    requires Execution(ss, ts) && n < |ss|
    ensures Delivered(ss, ts, n) + InHands(ss[n].pushers) == multiset(ss[n].taken)
  {
    hide Next, Enabled, InHands, InHand;
    if n > 0 {
      StepAt(ss, ts, n - 1);
      TakenAreDelivered(ss, ts, n - 1);
      var s, t := ss[n - 1], ts[n - 1];
      if t.Push? {
        EnabledPush(s, t);
        PushStepIs(s, t.p, t.y);
        HandsUpdate(s.pushers, t.p, ss[n].pushers[t.p]);
        assert Delivered(ss, ts, n)
               == Delivered(ss, ts, n - 1) + (if t.y.Deliver? then InHand(s.pushers[t.p]) else multiset{});
        hide Delivered;
        Balance(Delivered(ss, ts, n - 1), InHands(s.pushers), InHand(s.pushers[t.p]), InHands(ss[n].pushers),
                InHand(ss[n].pushers[t.p]));
      } else {
        PushersStay(s, t);
      }
    } else {
      NoHandsAtFirst(ss[0]);
    }
  }

  lemma NoHandsAtFirst(s: System)
    requires Init(s)
    ensures InHands(s.pushers) == multiset{} && s.taken == []
  {
    NoHands(s.pushers);
  }

  lemma EnabledPush(s: System, t: Step)
    requires t.Push? && Enabled(s, t)
    ensures PushEnabled(s, t.p, t.y) && Next(s, t) == PushNext(s, t.p, t.y)
  {
    hide PushEnabled, PushNext;
  }

  /** EVERY ACCEPTED JOB IS DELIVERED ONCE. In every interleaving what is delivered was accepted, each job at most as often;
      and when Stop returns each accepted job has been delivered, exactly as often as it was accepted. */
  lemma DeliveredOnce(ss: seq<System>, ts: seq<Step>, n: nat)
    requires Execution(ss, ts) && n < |ss|
    ensures Delivered(ss, ts, n) <= multiset(ss[n].accepted)
    ensures ss[n].stop.Stopped? ==> Delivered(ss, ts, n) == multiset(ss[n].accepted)
  {
    TakenAreDelivered(ss, ts, n);
    PollerStop.StopIsClean(ss, ts, n);
    var taken, accepted := ss[n].taken, ss[n].accepted;
    assert accepted == taken + accepted[|taken|..];
    assert multiset(accepted) == multiset(taken) + multiset(accepted[|taken|..]);
    if ss[n].stop.Stopped? {
      NoHands(ss[n].pushers);
    }
  }
}
