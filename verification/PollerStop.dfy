/** Shutdown of the poller: nothing is sent on a closed push channel, nothing accepted is lost, the poll workers end. */
module PollerStop {
  import opened Poller

  predicate PollOver(s: System) {
    s.stop.PollDrained? || s.stop.PushDetached? || PushQueueClosed(s)
  }

  ghost predicate Orderly(s: System) {
    && !s.pushPanic
    && (PollOver(s) ==> forall w :: 0 <= w < |s.workers| ==> s.workers[w].Exited?)
    && (forall w :: 0 <= w < |s.workers| && s.workers[w].Exited? ==> PollQueueClosed(s))
    && s.accepted == s.taken + s.pushQ
    && |s.pushers| == PUSH_WORKERS
    && (forall p :: 0 <= p < |s.pushers| && s.pushers[p].Ended? ==> PushQueueClosed(s) && s.pushQ == [])
    && (s.stop.Stopped? ==> forall p :: 0 <= p < |s.pushers| ==> s.pushers[p].Ended?)
  }

  lemma OrderlyTick(s: System, t: TickStep)
    requires Orderly(s) && TickEnabled(s, t)
    ensures Orderly(TickNextState(s, t))
  {
    TickFrame(s, t);
    hide TickNextState, TickEnabled;
  }

  lemma TickFrame(s: System, t: TickStep)
    requires TickEnabled(s, t)
    ensures var s' := TickNextState(s, t);
            s' == s.(inflight := s'.inflight, pollQ := s'.pollQ, ticker := s'.ticker, pollPanic := s'.pollPanic)
  {}

  /** What a worker step can do to the push side: nothing, or append the job it is sending. */
  ghost predicate WorkEffect(s: System, s': System, w: nat) {
    && w < |s.workers| == |s'.workers| && (forall v :: 0 <= v < |s.workers| && v != w ==> s'.workers[v] == s.workers[v])
    && s'.stop == s.stop && s'.pushers == s.pushers && s'.taken == s.taken
    && (s'.workers[w].Exited? ==> PollQueueClosed(s))
    && !s.workers[w].Exited?
    && (|| (s'.pushQ == s.pushQ && s'.accepted == s.accepted && s'.pushPanic == s.pushPanic)
        || (s.workers[w].Sending? && !PushQueueClosed(s) && s'.pushPanic == s.pushPanic
            && s'.pushQ == s.pushQ + [s.workers[w].job] && s'.accepted == s.accepted + [s.workers[w].job])
        || (s.workers[w].Sending? && PushQueueClosed(s)))
  }

  lemma ExitOnlyWhenClosed(s: System, w: nat, a: Action)
    requires WorkEnabled(s, w, a)
    ensures !s.workers[w].Exited? && (NextPc(s, w, a).Exited? ==> PollQueueClosed(s))
    ensures a.SendPush? ==> s.workers[w].Sending?
  {
    hide Changed, Rebaselines, EndsCompared, PushQueueClosed, PushFieldNil, HistoryOf, PollQueueClosed;
  }

  lemma SendEffects(s: System, w: nat)
    requires WorkEnabled(s, w, SendPush)
    ensures var s1, job, closed := Shared(s, w, SendPush), s.workers[w].job, PushQueueClosed(s);
            && s1.pushPanic == (s.pushPanic || closed)
            && (|| (s1.pushQ == s.pushQ && s1.accepted == s.accepted)
                || (!closed && s1.pushQ == s.pushQ + [job] && s1.accepted == s.accepted + [job]))
  {
    hide PushQueueClosed;
  }

  lemma WorkEffects(s: System, w: nat, a: Action)
    requires WorkEnabled(s, w, a)
    ensures WorkEffect(s, WorkNext(s, w, a), w)
  {
    SharedFrame(s, w, a);
    ExitOnlyWhenClosed(s, w, a);
    if a.SendPush? {
      SendEffects(s, w);
    }
    assert w < |s.workers|;
    hide Shared, NextPc, WorkEnabled, PushQueueClosed, PollQueueClosed;
  }

  lemma OrderlyWork(s: System, w: nat, a: Action)
    requires Orderly(s) && WorkEnabled(s, w, a)
    ensures Orderly(WorkNext(s, w, a))
  {
    WorkEffects(s, w, a);
    var s' := WorkNext(s, w, a);
    hide WorkNext, WorkEnabled;
    assert !PollOver(s);
    if s'.pushQ != s.pushQ {
      var job := s.workers[w].job;
      assert s.taken + (s.pushQ + [job]) == s.taken + s.pushQ + [job];
    }
  }

  lemma OrderlyStop(s: System, x: StopStep)
    requires Orderly(s) && StopEnabled(s, x)
    ensures Orderly(StopNext(s, x))
  {}

  lemma OrderlyPush(s: System, p: nat, y: PushStep)
    requires Orderly(s) && PushEnabled(s, p, y)
    ensures Orderly(PushNext(s, p, y))
  {
    match y {
      case StartPusher =>
      case TakePush =>
        assert s.taken + s.pushQ == s.taken + [s.pushQ[0]] + s.pushQ[1..];
      case Deliver =>
      case EndPusher =>
    }
  }

  lemma OrderlyStep(s: System, t: Step)
    requires Orderly(s) && Enabled(s, t)
    ensures Orderly(Next(s, t))
  {
    hide Orderly, TickNextState, WorkNext, StopNext, PushNext;
    match t {
      case Check(tick) => OrderlyTick(s, tick);
      case Work(w, a) => OrderlyWork(s, w, a);
      case Stopping(x) => OrderlyStop(s, x);
      case Push(p, y) => OrderlyPush(s, p, y);
    }
  }

  lemma {:induction false} OrderlyAlways(ss: seq<System>, ts: seq<Step>, i: nat)
    requires Execution(ss, ts) && i < |ss|
    ensures Orderly(ss[i])
  {
    hide Next, Enabled;
    if i > 0 {
      StepAt(ss, ts, i - 1);
      OrderlyAlways(ss, ts, i - 1);
      OrderlyStep(ss[i - 1], ts[i - 1]);
    }
  }

  /** THE SHUTDOWN THEOREM. In every interleaving no push job is sent on the closed push channel; push jobs are taken in
      the order in which they were accepted; and when Stop returns, every accepted job has been taken by a push worker,
      all poll workers and all push workers having ended. */
  lemma StopIsClean(ss: seq<System>, ts: seq<Step>, i: nat)
    requires Execution(ss, ts) && i < |ss|
    ensures !ss[i].pushPanic && ss[i].taken <= ss[i].accepted
    ensures ss[i].stop.Stopped? ==>
              && ss[i].taken == ss[i].accepted
              && (forall w :: 0 <= w < |ss[i].workers| ==> ss[i].workers[w].Exited?)
              && forall p :: 0 <= p < |ss[i].pushers| ==> ss[i].pushers[p].Ended?
  {
    OrderlyAlways(ss, ts, i);
    if ss[i].stop.Stopped? {
      assert ss[i].pushers[0].Ended?;
      assert ss[i].taken + [] == ss[i].taken;
    }
  }

  // ---------- the send on the poll channel ----------

  /** check has read the channel and not taken its snapshot, holds a slot it has not tried to send, or has entries of its
      snapshot before it. */
  predicate AboutToSend(t: Ticker) {
    match t
    case Resting => false
    case Armed => true
    case Walking(clients, k) => k < |clients|
    case Claimed(_, _, _) => true
    case Refused(_, clients, k) => k < |clients|
  }

  /** Stop closed the poll channel while check was about to send. */
  ghost predicate ClosedUnderCheck(ss: seq<System>, ts: seq<Step>, k: nat) {
    k < |ts| && k < |ss| && ts[k] == Stopping(ClosePoll) && AboutToSend(ss[k].ticker)
  }

  /** The one way a send on the closed poll channel can come about; PollerPanic shows that each such case can end in it. */
  lemma {:induction false} PollPanicOnlyIfClosedUnderCheck(ss: seq<System>, ts: seq<Step>, i: nat)
    requires Execution(ss, ts) && i < |ss|
    requires forall k :: 0 <= k < i ==> !ClosedUnderCheck(ss, ts, k)
    ensures !ss[i].pollPanic
    ensures PollQueueClosed(ss[i]) ==> !AboutToSend(ss[i].ticker)
  {
    hide Next, Enabled, AboutToSend;
    if i > 0 {
      StepAt(ss, ts, i - 1);
      PollPanicOnlyIfClosedUnderCheck(ss, ts, i - 1);
      assert !ClosedUnderCheck(ss, ts, i - 1);
      PollPanicStep(ss[i - 1], ts[i - 1]);
    }
  }

  lemma PollPanicStep(s: System, t: Step)
    requires Enabled(s, t) && !s.pollPanic && (PollQueueClosed(s) ==> !AboutToSend(s.ticker))
    requires t == Stopping(ClosePoll) ==> !AboutToSend(s.ticker)
    ensures !Next(s, t).pollPanic && (PollQueueClosed(Next(s, t)) ==> !AboutToSend(Next(s, t).ticker))
  {
    match t {
      case Work(w, a) =>
        if !a.Take? && !a.Drop? && !a.Release? {
          KeepsClient(s, w, a);
        }
        WorkKeepsPollPanic(s, w, a);
      case _ =>
    }
  }

  lemma WorkKeepsPollPanic(s: System, w: nat, a: Action)
    requires WorkEnabled(s, w, a)
    ensures WorkNext(s, w, a).pollPanic == s.pollPanic && WorkNext(s, w, a).ticker == s.ticker
    ensures WorkNext(s, w, a).stop == s.stop && WorkNext(s, w, a).pushers == s.pushers
  {
    SharedFrame(s, w, a);
    hide Shared, NextPc;
  }

  /** A run that shows it: one tick claims a client, Stop closes both channels, the send panics. */
  lemma PollPanicWitness(s: System, c: Client)
    requires Init(s)
    ensures var t2 := Next(Next(s, Check(Tick)), Check(Snapshot([c])));
            Enabled(t2, Check(TickNext))
    ensures var t3 := Next(Next(Next(s, Check(Tick)), Check(Snapshot([c]))), Check(TickNext));
            && Enabled(t3, Stopping(CloseStop)) && Enabled(StopNext(t3, CloseStop), Stopping(ClosePoll))
            && var t5 := StopNext(StopNext(t3, CloseStop), ClosePoll);
               Enabled(t5, Check(TickSend)) && Next(t5, Check(TickSend)).pollPanic
  {}

  // ---------- the poll workers end ----------

  function Rank(pc: Worker): nat {
    match pc
    case Exited => 0
    case Waiting => 1
    case Dropping(_) => 2
    case Finishing(_) => 2
    case Sending(_, _) => 3
    case Pushing(_, _) => 4
    case Comparing(_, _, _) => 5
    case Scraped(_, _) => 6
    case Scraping(_) => 7
    case Admitted(_) => 8
    case Handling(_) => 9
    case Taken(_) => 10
  }

  function Ranks(ws: seq<Worker>): nat {
    if ws == [] then 0 else Ranks(ws[..|ws| - 1]) + Rank(ws[|ws| - 1])
  }

  lemma {:induction false} RanksUpdate(ws: seq<Worker>, w: nat, pc: Worker)
    requires w < |ws|
    ensures Ranks(ws[w := pc]) + Rank(ws[w]) == Ranks(ws) + Rank(pc)
  {
    var n := |ws| - 1;
    if w < n {
      RanksUpdate(ws[..n], w, pc);
      assert ws[w := pc][..n] == ws[..n][w := pc];
    } else {
      assert ws[w := pc][..n] == ws[..n];
    }
  }

  /** What the workers still have to do once nothing new is enqueued. */
  function Remaining(s: System): nat { Ranks(s.workers) + 10 * |s.pollQ| }

  lemma RankStep(s: System, w: nat, a: Action)
    requires WorkEnabled(s, w, a) && !(s.workers[w].Sending? && PushQueueClosed(s))
    ensures var s' := WorkNext(s, w, a);
            && |s'.workers| == |s.workers| && s'.workers == s.workers[w := s'.workers[w]]
            && Rank(s'.workers[w]) + 10 * |s'.pollQ| < Rank(s.workers[w]) + 10 * |s.pollQ|
  {
    SharedFrame(s, w, a);
    var s1 := Shared(s, w, a);
    assert a.Take? ==> |s1.pollQ| + 1 == |s.pollQ|;
    assert s1.workers == s.workers && (!a.Take? ==> s1.pollQ == s.pollQ);
    hide Shared;
    NextRank(s, w, a);
    hide NextPc;
  }

  lemma NextRank(s: System, w: nat, a: Action)
    requires WorkEnabled(s, w, a) && !(s.workers[w].Sending? && PushQueueClosed(s))
    ensures Rank(NextPc(s, w, a)) < Rank(s.workers[w]) + (if a.Take? then 10 else 0)
  {
    hide Changed, Rebaselines, EndsCompared, PushQueueClosed, PushFieldNil, HistoryOf, PollQueueClosed;
  }

  /** Every step of a worker brings it nearer to its end. */
  lemma WorkGoesDown(s: System, w: nat, a: Action)
    requires Orderly(s) && WorkEnabled(s, w, a)
    ensures Remaining(WorkNext(s, w, a)) < Remaining(s)
  {
    NoSendOnClosed(s, w, a);
    RankStep(s, w, a);
    hide WorkNext, WorkEnabled, Orderly;
    RanksUpdate(s.workers, w, WorkNext(s, w, a).workers[w]);
  }

  lemma NoSendOnClosed(s: System, w: nat, a: Action)
    requires Orderly(s) && WorkEnabled(s, w, a)
    ensures !(s.workers[w].Sending? && PushQueueClosed(s))
  {}

  /** The comparison a worker is in is the last thing in the history of its client. */
  ghost predicate Recorded(s: System) {
    forall w :: 0 <= w < |s.workers| && s.workers[w].Comparing? ==> EndsCompared(HistoryOf(s, s.workers[w].client))
  }

  /** Once the poll channel is closed no worker is stuck: each that has not ended has a step. */
  lemma NoWorkerStuck(s: System, w: nat)
    requires PollQueueClosed(s) && w < |s.workers| && !s.workers[w].Exited? && Recorded(s)
    ensures exists a :: WorkEnabled(s, w, a)
  {
    var pc := s.workers[w];
    var a := match pc
             case Waiting => if s.pollQ == [] then Exit else Take
             case Taken(_) => SeeStop
             case Handling(c) => if c in s.breaker && s.breaker[c].skip > 0 then BreakerSkips else BreakerAdmits
             case Admitted(_) => Ungated
             case Scraping(_) => FetchFails
             case Scraped(_, _) => Compare
             case Comparing(_, _, _) => Enrich(0)
             case Pushing(_, _) => ReadPushCh
             case Sending(_, _) => SendPush
             case Finishing(_) => Release
             case Dropping(_) => Drop
             case Exited => Take;
    assert WorkEnabled(s, w, a);
  }

  /** How many of the steps i .. j - 1 are steps of workers. */
  function WorkSteps(ts: seq<Step>, i: nat, j: nat): nat
    requires j <= |ts|
  {
    if j <= i then 0 else WorkSteps(ts, i, j - 1) + (if ts[j - 1].Work? then 1 else 0)
  }

  /** THE WORKERS END. From the moment the poll channel is closed with check not about to send, the workers together make
      at most Remaining more steps, in any interleaving with the rest. */
  lemma {:induction false} WorkersEnd(ss: seq<System>, ts: seq<Step>, i: nat, j: nat)
    requires Execution(ss, ts) && i <= j < |ss| && PollQueueClosed(ss[i]) && !AboutToSend(ss[i].ticker)
    ensures WorkSteps(ts, i, j) + Remaining(ss[j]) <= Remaining(ss[i])
    ensures PollQueueClosed(ss[j]) && !AboutToSend(ss[j].ticker)
    decreases j - i
  {
    if i < j {
      StepAt(ss, ts, j - 1);
      hide Next, Enabled, Orderly, Remaining, PollQueueClosed, Execution;
      WorkersEnd(ss, ts, i, j - 1);
      OrderlyAlways(ss, ts, j - 1);
      RemainingStep(ss[j - 1], ts[j - 1]);
    }
  }

  lemma RemainingStep(s: System, t: Step)
    requires Orderly(s) && Enabled(s, t) && PollQueueClosed(s) && !AboutToSend(s.ticker)
    ensures Remaining(Next(s, t)) + (if t.Work? then 1 else 0) <= Remaining(s)
    ensures PollQueueClosed(Next(s, t)) && !AboutToSend(Next(s, t).ticker)
  {
    match t {
      case Work(w, a) =>
        WorkGoesDown(s, w, a);
        WorkKeepsPollPanic(s, w, a);
      case _ =>
    }
  }

  // ---------- when Stop itself may not return ----------

  /** A push worker that starts after Stop took the push channel away ranges over nil: it never ends, so from then on
      Stop never returns. */
  lemma {:induction false} HungForever(ss: seq<System>, ts: seq<Step>, i: nat, j: nat, p: nat)
    requires Execution(ss, ts) && i <= j < |ss| && p < |ss[i].pushers| && ss[i].pushers[p].Hung?
    ensures p < |ss[j].pushers| && ss[j].pushers[p].Hung? && !ss[j].stop.Stopped?
    decreases j - i
  {
    OrderlyAlways(ss, ts, j);
    hide Next, Enabled;
    if i < j {
      StepAt(ss, ts, j - 1);
      HungForever(ss, ts, i, j - 1, p);
      HungStep(ss[j - 1], ts[j - 1], p);
    }
  }

  lemma HungStep(s: System, t: Step, p: nat)
    requires Enabled(s, t) && p < |s.pushers| && s.pushers[p].Hung?
    ensures p < |Next(s, t).pushers| && Next(s, t).pushers[p].Hung?
  {
    match t {
      case Work(w, a) =>
        WorkKeepsPollPanic(s, w, a);
        hide WorkNext;
      case Push(q, y) =>
        hide PushQueueClosed, PushFieldNil;
      case Check(tick) =>
        TickFrame(s, tick);
        hide TickNextState, TickEnabled;
      case Stopping(x) =>
    }
  }

  /** With the push channel closed, a push worker has a step exactly when it neither hangs nor has ended. */
  lemma PusherCanGoOn(s: System, p: nat)
    requires PushQueueClosed(s) && p < |s.pushers|
    ensures (exists y :: PushEnabled(s, p, y)) <==> !s.pushers[p].Hung? && !s.pushers[p].Ended?
  {
    var y := if s.pushers[p].NotStarted? then StartPusher
             else if s.pushers[p].Delivering? then Deliver
             else if s.pushQ != [] then TakePush else EndPusher;
    if !s.pushers[p].Hung? && !s.pushers[p].Ended? {
      assert PushEnabled(s, p, y);
    }
  }

  /** A push worker that has not read the push channel, or has found it gone. */
  predicate Late(s: System, p: nat) {
    p < |s.pushers| && (s.pushers[p].NotStarted? || s.pushers[p].Hung?)
  }

  lemma LatePush(s: System, q: nat, y: PushStep, p: nat)
    requires PushEnabled(s, q, y) && PushFieldNil(s)
    ensures var s' := PushNext(s, q, y);
            && s'.stop == s.stop && |s'.pushers| == |s.pushers| && (Late(s', p) <==> Late(s, p))
  {
    hide PushFieldNil, PushQueueClosed;
  }

  lemma LateStop(s: System, x: StopStep, p: nat)
    requires StopEnabled(s, x) && PushFieldNil(s)
    ensures PushFieldNil(StopNext(s, x)) && (Late(s, p) ==> !StopNext(s, x).stop.Stopped?)
  {}

  lemma LateStep(s: System, t: Step, p: nat)
    requires Enabled(s, t) && PushFieldNil(s)
    ensures PushFieldNil(Next(s, t)) && |Next(s, t).pushers| == |s.pushers|
    ensures Late(Next(s, t), p) <==> Late(s, p)
    ensures Late(s, p) && !s.stop.Stopped? ==> !Next(s, t).stop.Stopped?
  {
    hide WorkNext, WorkEnabled, TickNextState, TickEnabled, PushNext, PushEnabled, StopEnabled;
    match t {
      case Work(w, a) => WorkKeepsPollPanic(s, w, a);
      case Check(tick) => TickFrame(s, tick);
      case Stopping(x) => LateStop(s, x, p);
      case Push(q, y) => LatePush(s, q, y, p);
    }
  }

  /** From the moment Stop takes the push channel away, the late push workers are the same for ever, in any
      interleaving; and as long as there is one Stop does not return. */
  lemma {:induction false} HangsIffLate(ss: seq<System>, ts: seq<Step>, i: nat, j: nat, p: nat)
    requires Execution(ss, ts) && i <= j < |ss| && PushFieldNil(ss[i])
    ensures PushFieldNil(ss[j]) && |ss[j].pushers| == |ss[i].pushers|
    ensures Late(ss[j], p) <==> Late(ss[i], p)
    ensures Late(ss[i], p) ==> !ss[j].stop.Stopped?
    decreases j - i
  {
    OrderlyAlways(ss, ts, j);
    hide Next, Enabled;
    if i < j {
      StepAt(ss, ts, j - 1);
      HangsIffLate(ss, ts, i, j - 1, p);
      LateStep(ss[j - 1], ts[j - 1], p);
    }
  }

  // ---------- the push workers end ----------

  function PushRank(x: Pusher): nat {
    match x
    case Hung => 0
    case Ended => 0
    case Draining => 1
    case Delivering(_) => 2
    case NotStarted => 2
  }

  function PushRanks(ps: seq<Pusher>): nat {
    if ps == [] then 0 else PushRanks(ps[..|ps| - 1]) + PushRank(ps[|ps| - 1])
  }

  lemma {:induction false} PushRanksUpdate(ps: seq<Pusher>, p: nat, x: Pusher)
    requires p < |ps|
    ensures PushRanks(ps[p := x]) + PushRank(ps[p]) == PushRanks(ps) + PushRank(x)
  {
    var n := |ps| - 1;
    if p < n {
      PushRanksUpdate(ps[..n], p, x);
      assert ps[p := x][..n] == ps[..n][p := x];
    } else {
      assert ps[p := x][..n] == ps[..n];
    }
  }

  /** What the push workers still have to do once nothing new is accepted. */
  function PushLeft(s: System): nat { PushRanks(s.pushers) + 2 * |s.pushQ| }

  lemma PushGoesDown(s: System, p: nat, y: PushStep)
    requires PushEnabled(s, p, y)
    ensures PushLeft(PushNext(s, p, y)) < PushLeft(s)
    ensures PushNext(s, p, y).stop == s.stop
  {
    var s' := PushNext(s, p, y);
    PushRanksUpdate(s.pushers, p, s'.pushers[p]);
    assert s'.pushers == s.pushers[p := s'.pushers[p]];
    hide PushRanks, PushFieldNil, PushQueueClosed;
  }

  /** How many of the steps i .. j - 1 are steps of push workers. */
  function PushSteps(ts: seq<Step>, i: nat, j: nat): nat
    requires j <= |ts|
  {
    if j <= i then 0 else PushSteps(ts, i, j - 1) + (if ts[j - 1].Push? then 1 else 0)
  }

  lemma PushLeftStep(s: System, t: Step)
    requires Orderly(s) && PollOver(s) && Enabled(s, t)
    ensures PollOver(Next(s, t)) && PushLeft(Next(s, t)) + (if t.Push? then 1 else 0) <= PushLeft(s)
  {
    hide PushLeft;
    match t {
      case Work(w, a) => NoWorkLeft(s, w, a);
      case Check(tick) =>
        TickFrame(s, tick);
        hide TickNextState, TickEnabled;
        SamePushLeft(s, Next(s, t));
      case Stopping(x) => SamePushLeft(s, Next(s, t));
      case Push(p, y) => PushGoesDown(s, p, y);
    }
  }

  lemma NoWorkLeft(s: System, w: nat, a: Action)
    requires Orderly(s) && PollOver(s)
    ensures !WorkEnabled(s, w, a)
  {}

  lemma SamePushLeft(s: System, s': System)
    requires s'.pushers == s.pushers && s'.pushQ == s.pushQ
    ensures PushLeft(s') == PushLeft(s)
  {}

  /** THE PUSH WORKERS END. Once the poll workers have ended, the push workers together make at most PushLeft more steps,
      in any interleaving with the rest. */
  lemma {:induction false} PushersEnd(ss: seq<System>, ts: seq<Step>, i: nat, j: nat)
    requires Execution(ss, ts) && i <= j < |ss| && PollOver(ss[i])
    ensures PollOver(ss[j]) && PushSteps(ts, i, j) + PushLeft(ss[j]) <= PushLeft(ss[i])
    decreases j - i
  {
    if i < j {
      StepAt(ss, ts, j - 1);
      hide Next, Enabled, Orderly, PushLeft, PollOver, Execution;
      PushersEnd(ss, ts, i, j - 1);
      OrderlyAlways(ss, ts, j - 1);
      PushLeftStep(ss[j - 1], ts[j - 1]);
    }
  }
}
