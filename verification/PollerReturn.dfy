/** When Stop returns. */
module PollerReturn {
  import opened Common
  import opened Poller
  import opened PollerFollow
  import opened PollerStop

  ghost predicate Returns(s: System, more: seq<Step>) {
    Follow(s, more).Some? && Follow(s, more).value.stop.Stopped?
  }

  /** Some continuation lets Stop return. */
  ghost predicate CanReturn(s: System) {
    exists more :: Returns(s, more)
  }

  // ---------- a late push worker ----------

  lemma {:induction false} LateNeverReturns(s: System, p: nat, more: seq<Step>)
    requires PushFieldNil(s) && Late(s, p) && !s.stop.Stopped?
    ensures !Returns(s, more)
    decreases |more|
  {
    hide Next, Enabled;
    if more != [] && Enabled(s, more[0]) {
      LateStep(s, more[0], p);
      LateNeverReturns(Next(s, more[0]), p, more[1..]);
    }
  }

  // ---------- no late push worker ----------

  ghost predicate NoneLate(s: System) {
    forall p: nat :: !Late(s, p)
  }

  /** A step that brings Stop nearer to its end. */
  lemma Forward(s: System) returns (t: Step)
    requires PushFieldNil(s) && !s.stop.Stopped? && NoneLate(s)
    ensures t.Push? || t == Stopping(ClosePush) || t == Stopping(PushWait)
    ensures Enabled(s, t)
  {
    if s.stop.PushDetached? {
      t := Stopping(ClosePush);
    } else if p: nat :| p < |s.pushers| && !s.pushers[p].Ended? {
      assert !Late(s, p);
      PusherCanGoOn(s, p);
      var y :| PushEnabled(s, p, y);
      t := Push(p, y);
    } else {
      t := Stopping(PushWait);
    }
  }

  function StopRank(x: Stop): nat {
    match x
    case PushDetached => 2
    case PushClosed => 1
    case _ => 0
  }

  lemma ForwardStep(s: System, t: Step)
    requires PushFieldNil(s) && NoneLate(s) && Enabled(s, t)
    requires t.Push? || t == Stopping(ClosePush) || t == Stopping(PushWait)
    ensures PushFieldNil(Next(s, t)) && NoneLate(Next(s, t))
    ensures PushLeft(Next(s, t)) + StopRank(Next(s, t).stop) < PushLeft(s) + StopRank(s.stop)
  {
    hide PushLeft;
    forall p: nat
      ensures !Late(Next(s, t), p)
    {
      LateStep(s, t, p);
    }
    LateStep(s, t, 0);
    if t.Push? {
      PushGoesDown(s, t.p, t.y);
    } else {
      SamePushLeft(s, Next(s, t));
    }
  }

  lemma {:induction false} Finish(s: System) returns (more: seq<Step>)
    requires PushFieldNil(s) && NoneLate(s)
    ensures Returns(s, more)
    decreases PushLeft(s) + StopRank(s.stop)
  {
    hide Next, Enabled, NoneLate, PushLeft, StopRank, PushFieldNil;
    if s.stop.Stopped? {
      more := [];
    } else {
      var t := Forward(s);
      ForwardStep(s, t);
      var rest := Finish(Next(s, t));
      FollowCons(s, t, rest);
      more := [t] + rest;
    }
  }

  // ---------- exactly when ----------

  ghost predicate HungMeansNil(s: System) {
    forall p :: 0 <= p < |s.pushers| && s.pushers[p].Hung? ==> PushFieldNil(s)
  }

  lemma HungMeansNilStep(s: System, t: Step)
    requires HungMeansNil(s) && Enabled(s, t)
    ensures HungMeansNil(Next(s, t))
  {
    match t {
      case Work(w, a) =>
        WorkKeepsPollPanic(s, w, a);
        hide WorkNext;
      case Check(tick) =>
        TickFrame(s, tick);
        hide TickNextState, TickEnabled;
      case Stopping(x) =>
      case Push(q, y) =>
    }
  }

  lemma {:induction false} HungMeansNilAlways(ss: seq<System>, ts: seq<Step>, i: nat)
    requires Execution(ss, ts) && i < |ss|
    ensures HungMeansNil(ss[i])
  {
    hide Next, Enabled;
    if i > 0 {
      StepAt(ss, ts, i - 1);
      HungMeansNilAlways(ss, ts, i - 1);
      HungMeansNilStep(ss[i - 1], ts[i - 1]);
    }
  }

  /** WHEN STOP RETURNS. After Stop has taken the push channel away, some continuation of the run lets it return, exactly
      when every push worker had read the channel by then. One that had not makes it hang in every continuation; and if
      there is none, Stop and the push workers can always go on, by a bounded number of steps (PushersEnd), until it
      has returned. */
  lemma StopReturnsIff(ss: seq<System>, ts: seq<Step>, i: nat)
    requires Execution(ss, ts) && i < |ts| && ts[i] == Stopping(DetachPush)
    ensures CanReturn(ss[i + 1]) <==> forall p :: 0 <= p < |ss[i].pushers| ==> !ss[i].pushers[p].NotStarted?
  {
    var s, s' := ss[i], ss[i + 1];
    StepAt(ss, ts, i);
    HungMeansNilAlways(ss, ts, i);
    assert s' == s.(stop := PushDetached) && !PushFieldNil(s);
    hide Next, Enabled, Follow, Execution;
    if p :| 0 <= p < |s.pushers| && s.pushers[p].NotStarted? {
      assert Late(s', p);
      forall more
        ensures !Returns(s', more)
      {
        LateNeverReturns(s', p, more);
      }
    } else {
      assert NoneLate(s');
      var more := Finish(s');
    }
  }

  /** As long as Stop has the push channel in hand and no push worker is late, one of the two has a step. */
  lemma StopNeverStuck(ss: seq<System>, ts: seq<Step>, i: nat, j: nat)
    requires Execution(ss, ts) && i < |ts| && ts[i] == Stopping(DetachPush) && i < j < |ss| && !ss[j].stop.Stopped?
    requires forall p :: 0 <= p < |ss[i].pushers| ==> !ss[i].pushers[p].NotStarted?
    ensures exists t: Step :: Enabled(ss[j], t) && (t.Push? || t.Stopping?)
  {
    var s, s' := ss[i], ss[i + 1];
    StepAt(ss, ts, i);
    HungMeansNilAlways(ss, ts, i);
    assert s' == s.(stop := PushDetached) && !PushFieldNil(s);
    hide Next, Enabled;
    forall p: nat
      ensures !Late(ss[j], p)
    {
      HangsIffLate(ss, ts, i + 1, j, p);
    }
    HangsIffLate(ss, ts, i + 1, j, 0);
    var t := Forward(ss[j]);
  }

  // ---------- a run that hangs ----------

  lemma {:induction false} ExitAll(s: System, k: nat) returns (more: seq<Step>)
    requires k <= |s.workers| && PollQueueClosed(s) && s.pollQ == []
    requires forall w :: 0 <= w < k ==> s.workers[w] == Exited
    requires forall w :: k <= w < |s.workers| ==> s.workers[w] == Waiting
    ensures Follow(s, more) == Some(s.(workers := seq(|s.workers|, _ => Exited)))
    decreases |s.workers| - k
  {
    if k == |s.workers| {
      more := [];
      assert s.workers == seq(|s.workers|, _ => Exited);
    } else {
      var t := Work(k, Exit);
      assert Next(s, t) == s.(workers := s.workers[k := Exited]);
      hide Next, Enabled, PollQueueClosed, Follow;
      var rest := ExitAll(s.(workers := s.workers[k := Exited]), k + 1);
      FollowCons(s, t, rest);
      more := [t] + rest;
    }
  }

  /** A run in which Stop hangs: it is called right after Start, before push worker 0 has read the channel; the poll
      workers exit, the channel is taken away, push worker 0 starts, and no continuation lets Stop return. */
  lemma HangWitness(s: System) returns (before: seq<Step>, s': System)
    requires Init(s)
    ensures Follow(s, before) == Some(s') && !CanReturn(s')
    ensures s'.pushers != [] && s'.pushers[0] == Hung
  {
    var s2 := s.(stop := PollClosed);
    var exits := ExitAll(s2, 0);
    var s3 := s2.(workers := seq(|s.workers|, _ => Exited));
    var s4 := s3.(stop := PollDrained);
    var s5 := s3.(stop := PushDetached);
    s' := s5.(pushers := s.pushers[0 := Hung]);
    var a, b := [Stopping(CloseStop), Stopping(ClosePoll)], [Stopping(PollWait), Stopping(DetachPush), Push(0, StartPusher)];
    assert Follow(s, a) == Some(s2) by {
      Step2(s);
    }
    assert Follow(s3, b) == Some(s') by {
      Step3(s3);
    }
    hide Next, Enabled, Follow;
    FollowAppend(s, a, exits);
    FollowAppend(s, a + exits, b);
    before := a + exits + b;
    forall more
      ensures !Returns(s', more)
    {
      LateNeverReturns(s', 0, more);
    }
  }

  lemma Step2(s: System)
    requires s.stop == NotStopping
    ensures Follow(s, [Stopping(CloseStop), Stopping(ClosePoll)]) == Some(s.(stop := PollClosed))
  {
    var s1, s2 := s.(stop := StopClosed), s.(stop := PollClosed);
    var none: seq<Step> := [];
    FollowCons(s1, Stopping(ClosePoll), none);
    FollowCons(s, Stopping(CloseStop), [Stopping(ClosePoll)]);
    assert [Stopping(ClosePoll)] + none == [Stopping(ClosePoll)];
    assert [Stopping(CloseStop)] + [Stopping(ClosePoll)] == [Stopping(CloseStop), Stopping(ClosePoll)];
  }

  lemma Step3(s: System)
    requires s.stop == PollClosed && (forall w :: 0 <= w < |s.workers| ==> s.workers[w].Exited?)
    requires |s.pushers| > 0 && s.pushers[0] == NotStarted
    ensures Follow(s, [Stopping(PollWait), Stopping(DetachPush), Push(0, StartPusher)])
            == Some(s.(stop := PushDetached, pushers := s.pushers[0 := Hung]))
  {
    var s1, s2 := s.(stop := PollDrained), s.(stop := PushDetached);
    var none: seq<Step> := [];
    FollowCons(s2, Push(0, StartPusher), none);
    FollowCons(s1, Stopping(DetachPush), [Push(0, StartPusher)]);
    FollowCons(s, Stopping(PollWait), [Stopping(DetachPush), Push(0, StartPusher)]);
    assert [Push(0, StartPusher)] + none == [Push(0, StartPusher)];
    assert [Stopping(DetachPush)] + [Push(0, StartPusher)] == [Stopping(DetachPush), Push(0, StartPusher)];
    assert [Stopping(PollWait)] + [Stopping(DetachPush), Push(0, StartPusher)]
        == [Stopping(PollWait), Stopping(DetachPush), Push(0, StartPusher)];
  }
}
