/** When a check that is under way while Stop closes the poll channel can still send on it. */
module PollerPanic {
  import opened Common
  import opened Poller
  import opened PollerFollow
  import opened PollerStop
  import opened PollerChain
  import PollerPushes

  ghost predicate Panics(s: System, more: seq<Step>) {
    Follow(s, more).Some? && Follow(s, more).value.pollPanic
  }

  /** Some continuation sends on the closed poll channel. */
  ghost predicate CanPanic(s: System) {
    exists more :: Panics(s, more)
  }

  // ---------- never ----------

  lemma QuietStep(s: System, t: Step)
    requires Enabled(s, t) && PollQueueClosed(s) && !AboutToSend(s.ticker) && !s.pollPanic
    ensures var s' := Next(s, t); PollQueueClosed(s') && !AboutToSend(s'.ticker) && !s'.pollPanic
  {
    match t {
      case Work(w, a) =>
        WorkKeepsPollPanic(s, w, a);
        hide WorkNext;
      case _ =>
    }
  }

  lemma {:induction false} NeverPanics(s: System, more: seq<Step>)
    requires PollQueueClosed(s) && !AboutToSend(s.ticker) && !s.pollPanic
    ensures !Panics(s, more)
    decreases |more|
  {
    hide Next, Enabled, PollQueueClosed, AboutToSend;
    if more != [] && Enabled(s, more[0]) {
      QuietStep(s, more[0]);
      NeverPanics(Next(s, more[0]), more[1..]);
    }
  }

  lemma NoPanicYetStep(s: System, t: Step)
    requires Enabled(s, t) && (s.pollPanic ==> PollQueueClosed(s))
    ensures Next(s, t).pollPanic ==> PollQueueClosed(Next(s, t))
  {
    match t {
      case Work(w, a) =>
        WorkKeepsPollPanic(s, w, a);
        hide WorkNext;
      case _ =>
    }
  }

  lemma {:induction false} NoPanicYet(ss: seq<System>, ts: seq<Step>, i: nat)
    requires Execution(ss, ts) && i < |ss|
    ensures ss[i].pollPanic ==> PollQueueClosed(ss[i])
  {
    hide Next, Enabled, PollQueueClosed;
    if i > 0 {
      StepAt(ss, ts, i - 1);
      NoPanicYet(ss, ts, i - 1);
      NoPanicYetStep(ss[i - 1], ts[i - 1]);
    }
  }

  // ---------- the workers can always empty the queue first ----------

  /** What every reachable state has, with the poll channel closed and check at the given place. */
  ghost predicate Closing(s: System, t: Ticker) {
    Slots(s) && Chained(s) && Orderly(s) && PollQueueClosed(s) && s.ticker == t
  }

  predicate NoneExited(s: System) {
    s.workers != [] && forall w :: 0 <= w < |s.workers| ==> !s.workers[w].Exited?
  }

  predicate Drained(s: System) {
    s.pollQ == [] && forall w :: 0 <= w < |s.workers| ==> s.workers[w].Waiting?
  }

  lemma WorkKeepsClosing(s: System, w: nat, a: Action)
    requires Closing(s, s.ticker) && NoneExited(s) && WorkEnabled(s, w, a) && !a.Exit?
    ensures Closing(WorkNext(s, w, a), s.ticker) && NoneExited(WorkNext(s, w, a))
    ensures Remaining(WorkNext(s, w, a)) < Remaining(s)
  {
    var s' := WorkNext(s, w, a);
    WorkGoesDown(s, w, a);
    WorkKeepsPollPanic(s, w, a);
    SlotsWork(s, w, a);
    ChainedWork(s, w, a);
    OrderlyWork(s, w, a);
    StaysIn(s, w, a);
    hide WorkNext, Slots, Chained, Orderly, Remaining;
  }

  lemma StaysIn(s: System, w: nat, a: Action)
    requires NoneExited(s) && WorkEnabled(s, w, a) && !a.Exit?
    ensures NoneExited(WorkNext(s, w, a))
  {
    SharedFrame(s, w, a);
    assert !NextPc(s, w, a).Exited?;
    hide Shared, NextPc;
  }

  /** A step of a worker that has a client in hand, or takes one. */
  lemma SomeWork(s: System) returns (w: nat, a: Action)
    requires Closing(s, s.ticker) && NoneExited(s) && !Drained(s)
    ensures WorkEnabled(s, w, a) && !a.Exit?
  {
    if v: nat :| v < |s.workers| && !s.workers[v].Waiting? {
      w := v;
      PollerPushes.RecordedNow(s);
      hide Chained, Slots, Orderly;
      NoWorkerStuck(s, w);
      a :| WorkEnabled(s, w, a);
    } else {
      w, a := 0, Take;
    }
  }

  lemma {:induction false} Drain(s: System) returns (more: seq<Step>, s': System)
    requires Closing(s, s.ticker) && NoneExited(s)
    ensures Follow(s, more) == Some(s') && Closing(s', s.ticker) && Drained(s')
    decreases Remaining(s)
  {
    hide Closing, NoneExited, Drained, Remaining, WorkNext, WorkEnabled;
    if Drained(s) {
      more, s' := [], s;
      assert Closing(s, s.ticker);
    } else {
      var w, a := SomeWork(s);
      WorkKeepsClosing(s, w, a);
      var next := WorkNext(s, w, a);
      assert Enabled(s, Work(w, a)) && Next(s, Work(w, a)) == next;
      SameTicker(next, s.ticker);
      var rest;
      rest, s' := Drain(next);
      FollowCons(s, Work(w, a), rest);
      more := [Work(w, a)] + rest;
    }
  }

  lemma SameTicker(s: System, t: Ticker)
    requires Closing(s, t)
    ensures s.ticker == t
  {}

  // ---------- and then check sends ----------

  lemma ClaimedPanics(s: System)
    requires PollQueueClosed(s) && s.ticker.Claimed?
    ensures Panics(s, [Check(TickSend)])
  {
    var none: seq<Step> := [];
    FollowCons(s, Check(TickSend), none);
    assert [Check(TickSend)] + none == [Check(TickSend)];
    hide Follow;
    FollowNone(Next(s, Check(TickSend)));
  }

  lemma FollowNone(s: System)
    ensures Follow(s, []) == Some(s)
  {}

  /** With nothing enqueued, queued or running, the next entry of the snapshot is claimed. */
  lemma WalkingClaims(s: System)
    requires Slots(s) && Drained(s) && s.ticker.Walking? && s.ticker.k < |s.ticker.clients|
    ensures TickNextState(s, TickNext).ticker.Claimed? && TickNextState(s, TickNext).stop == s.stop
  {
    var c := s.ticker.clients[s.ticker.k];
    assert !Held(s, c) && TickerClient(s.ticker) == None && c !in s.pollQ;
  }

  lemma WalkingPanics(s: System) returns (more: seq<Step>)
    requires Closing(s, s.ticker) && NoneExited(s) && s.ticker.Walking? && s.ticker.k < |s.ticker.clients|
    ensures Panics(s, more)
  {
    var drain, s' := Drain(s);
    var t := Check(TickNext);
    WalkingClaims(s');
    assert Enabled(s', t) && Next(s', t) == TickNextState(s', TickNext);
    var s'' := Next(s', t);
    assert PollQueueClosed(s'');
    hide Next, Enabled, Closing, Follow, Slots, Chained, Orderly;
    ClaimedPanics(s'');
    FollowCons(s', t, [Check(TickSend)]);
    FollowAppend(s, drain, [t] + [Check(TickSend)]);
    more := drain + ([t] + [Check(TickSend)]);
  }

  /** A snapshot taken after the channel was closed, with one authenticated session in it. */
  lemma ArmedPanics(s: System) returns (more: seq<Step>)
    requires Closing(s, s.ticker) && NoneExited(s) && s.ticker.Armed?
    ensures Panics(s, more)
  {
    var x := Snapshot([1]);
    var t := Check(x);
    var s' := TickNextState(s, x);
    SlotsTick(s, x);
    OrderlyTick(s, x);
    ChainedStep(s, t);
    assert Enabled(s, t) && Next(s, t) == s' == s.(ticker := Walking([1], 0));
    hide TickNextState, Next, Enabled, Follow, Slots, Chained, Orderly;
    var rest := WalkingPanics(s');
    FollowCons(s, t, rest);
    more := [t] + rest;
  }

  lemma RefusedPanics(s: System) returns (more: seq<Step>)
    requires Closing(s, s.ticker) && NoneExited(s) && s.ticker.Refused? && s.ticker.k < |s.ticker.clients|
    ensures Panics(s, more)
  {
    var t := Check(TickRelease);
    var s' := TickNextState(s, TickRelease);
    SlotsTick(s, TickRelease);
    OrderlyTick(s, TickRelease);
    ChainedStep(s, t);
    assert Enabled(s, t) && Next(s, t) == s';
    assert s'.ticker == Walking(s.ticker.clients, s.ticker.k) && s'.workers == s.workers && s'.stop == s.stop;
    hide TickNextState, Next, Enabled, Follow, Slots, Chained, Orderly;
    var rest := WalkingPanics(s');
    FollowCons(s, t, rest);
    more := [t] + rest;
  }

  // ---------- exactly when ----------

  /** WHEN THE SEND PANICS. When Stop closes the poll channel, some continuation of the run sends on it, exactly when check
      has then read the channel and not taken its snapshot, holds a slot it has not sent yet, or still has entries of
      its snapshot before it. */
  lemma PanicsIff(ss: seq<System>, ts: seq<Step>, i: nat)
    requires Execution(ss, ts) && i < |ts| && ts[i] == Stopping(ClosePoll)
    ensures CanPanic(ss[i + 1]) <==> AboutToSend(ss[i].ticker)
  {
    var s, s' := ss[i], ss[i + 1];
    StepAt(ss, ts, i);
    NoPanicYet(ss, ts, i);
    ChainedAlways(ss, ts, i + 1);
    OrderlyAlways(ss, ts, i);
    OrderlyAlways(ss, ts, i + 1);
    assert s' == s.(stop := PollClosed) && !PollQueueClosed(s) && PollQueueClosed(s');
    WorkersThere(ss, ts, i);
    assert NoneExited(s') && Closing(s', s'.ticker);
    hide Next, Enabled, Closing, NoneExited, Follow, Orderly, Chained, Slots, Execution;
    if s.ticker.Claimed? {
      ClaimedPanics(s');
    } else if AboutToSend(s.ticker) {
      var more;
      if s.ticker.Armed? {
        more := ArmedPanics(s');
      } else if s.ticker.Walking? {
        more := WalkingPanics(s');
      } else {
        more := RefusedPanics(s');
      }
    } else {
      forall more
        ensures !Panics(s', more)
      {
        NeverPanics(s', more);
      }
    }
  }

  lemma {:induction false} WorkersThere(ss: seq<System>, ts: seq<Step>, i: nat)
    requires Execution(ss, ts) && i < |ss|
    ensures |ss[i].workers| == POLL_WORKERS
  {
    hide Next, Enabled;
    if i > 0 {
      StepAt(ss, ts, i - 1);
      WorkersThere(ss, ts, i - 1);
      SameNumber(ss[i - 1], ts[i - 1]);
    }
  }

  lemma SameNumber(s: System, t: Step)
    requires Enabled(s, t)
    ensures |Next(s, t).workers| == |s.workers|
  {
    match t {
      case Work(w, a) =>
        SharedFrame(s, w, a);
        hide Shared, NextPc;
      case Check(tick) =>
        TickFrame(s, tick);
        hide TickNextState, TickEnabled;
      case Stopping(x) =>
      case Push(p, y) =>
    }
  }

  /** A check that is under way need not panic: with an empty snapshot it just comes to rest. */
  lemma UnderWayWithoutPanic(s: System)
    requires Init(s)
    ensures var s' := StopNext(StopNext(Next(Next(s, Check(Tick)), Check(Snapshot([]))), CloseStop), ClosePoll);
            !s'.ticker.Resting? && !CanPanic(s')
  {
    var s' := StopNext(StopNext(Next(Next(s, Check(Tick)), Check(Snapshot([]))), CloseStop), ClosePoll);
    forall more
      ensures !Panics(s', more)
    {
      NeverPanics(s', more);
    }
  }
}
