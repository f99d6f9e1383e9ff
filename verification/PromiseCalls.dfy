/** What users see of the engine: which callbacks are called, with what, and what becomes of the promises that then
    returned. Sections 2.2.2, 2.2.3, 2.2.6 and 2.2.7 of Promises/A+, over every execution. */
module PromiseCalls {
  import opened Common
  import opened Promises
  import opened PromiseRuns

  // ---------- one subscription handled ----------

  /** The promise and the subscription flush or publish comes to with this move, if any. */
  function Comes(s: Engine, m: Move): Option<(PId, Sub)>
    requires Good(s) && Enabled(s, m)
  {
    match m
    case FlushTurn =>
      var i := s.control.i;
      if i < |s.queue| && s.queue[i].InvokeThen? then Some((s.queue[i].p, s.queue[i].sub)) else None
    case PublishTurn =>
      var Publishing(i, p, j) := s.control;
      if j < |s.heap[p].subscribers| then Some((p, s.heap[p].subscribers[j])) else None
    case _ => None
  }

  /** The call that subscription sub is owed when its promise is settled so: the callback it was given for that state. */
  function Owed(p: PId, sub: Sub, state: State, value: Value): seq<Call> {
    if sub.Then? && state == Fulfilled && sub.onFulfilled then [Call(p, sub.reg, OnFulfilled, value)]
    else if sub.Then? && state == Rejected && sub.onRejected then [Call(p, sub.reg, OnRejected, value)]
    else []
  }

  lemma ComesGood(s: Engine, m: Move)
    requires Good(s) && Enabled(s, m) && Comes(s, m).Some?
    ensures var (p, sub) := Comes(s, m).value;
            p < |s.heap| && s.heap[p].state != Pending && sub in s.heap[p].history
  {
    match m {
      case FlushTurn => assert GoodJob(s, s.queue[s.control.i]);
      case PublishTurn => assert GoodPromise(s, s.control.p);
    }
  }

  /** Only a subscription that is handled runs, and only it causes a call: the one it is owed. */
  ghost predicate Handled(s: Engine, s': Engine, p: PId, sub: Sub) {
    && p < |s.heap| <= |s'.heap|
    && s'.heap[p].ran == s.heap[p].ran + [Ran(sub, s.heap[p].state, s.heap[p].result)]
    && (forall r :: 0 <= r < |s.heap| && r != p ==> s'.heap[r].ran == s.heap[r].ran)
    && (forall r :: |s.heap| <= r < |s'.heap| ==> s'.heap[r].ran == [])
    && s'.calls == s.calls + Owed(p, sub, s.heap[p].state, s.heap[p].result)
  }

  ghost predicate NothingHandled(s: Engine, s': Engine) {
    && |s.heap| <= |s'.heap| && s'.calls == s.calls
    && (forall r :: 0 <= r < |s.heap| ==> s'.heap[r].ran == s.heap[r].ran)
    && (forall r :: |s.heap| <= r < |s'.heap| ==> s'.heap[r].ran == [])
  }

  lemma HandleCalls(s: Engine, i: nat, p: PId, sub: Sub, from: Option<nat>)
    requires Good(s) && i < |s.queue| && p < |s.heap| && sub in s.heap[p].history && s.heap[p].state != Pending
    ensures Handle(s, i, p, sub, from).calls == s.calls + Owed(p, sub, s.heap[p].state, s.heap[p].result)
  {
    assert GoodPromise(s, p) && GoodSub(s, p, sub);
    var s1 := Log(s, p, sub);
    assert s1.calls == s.calls && Advance(s1, i, p, from).calls == s.calls;
    hide Advance, Log, Fulfill, Reject, Subscribe;
  }

  lemma HandleHandles(s: Engine, i: nat, p: PId, sub: Sub, from: Option<nat>)
    requires Good(s) && i < |s.queue| && p < |s.heap| && sub in s.heap[p].history && s.heap[p].state != Pending
    ensures Handled(s, Handle(s, i, p, sub, from), p, sub)
  {
    HandleCalls(s, i, p, sub, from);
    CalmHandle(s, i, p, sub, from);
    hide Handle, Onward;
  }

  lemma UserCalls(s: Engine, m: Move)
    requires Good(s) && Enabled(s, m) && !m.FlushTurn? && !m.PublishTurn?
    ensures Next(s, m).calls == s.calls
    ensures if m.UserReturns? then !Next(s, m).control.Running? else Silent(s, Next(s, m))
  {
    hide Fulfill, Reject, Subscribe, EachEntryFrom;
    match m {
      case UserAll(entries) => AllCalls(s, entries);
      case UserReturns(c) =>
        var Running(i, p, sub, from) := s.control;
        assert GoodPromise(s, p) && GoodSub(s, p, sub);
      case _ =>
    }
  }

  lemma AllCalls(s: Engine, entries: seq<Value>)
    requires forall v :: v in entries ==> KnownValue(s, v)
    ensures Silent(s, All(s, entries))
  {
    hide Fulfill, EachEntryFrom;
    var e, p := |s.enums|, |s.heap|;
    var en := Enumerator(p, entries, |entries|, Nones(|entries|), Nones(|entries|));
    var s1 := MakePromise(s, AllOf(e)).(enums := s.enums + [en]);
    if entries != [] {
      assert forall v :: v in entries ==> KnownValue(s, v) && KnownValue(s1, v);
      AllShape(s1, e, 0);
    }
  }

  lemma MoveHandles(s: Engine, m: Move)
    requires Good(s) && Enabled(s, m)
    ensures match Comes(s, m)
            case None => NothingHandled(s, Next(s, m))
            case Some((p, sub)) => Handled(s, Next(s, m), p, sub)
  {
    if m.FlushTurn? || m.PublishTurn? {
      TurnHandles(s, m);
    } else {
      UserCalls(s, m);
      MoveKeeps(s, m);
      hide Next, Good, Enabled, Kept;
    }
  }

  lemma TurnHandles(s: Engine, m: Move)
    requires Good(s) && Enabled(s, m) && (m.FlushTurn? || m.PublishTurn?)
    ensures match Comes(s, m)
            case None => NothingHandled(s, Next(s, m))
            case Some((p, sub)) => Handled(s, Next(s, m), p, sub)
  {
    hide Handle, Handled;
    if Comes(s, m).Some? {
      ComesGood(s, m);
      var (p, sub) := Comes(s, m).value;
      match m {
        case FlushTurn => HandleHandles(s, s.control.i, p, sub, None);
        case PublishTurn => HandleHandles(s, s.control.i, p, sub, Some(s.control.j));
      }
    }
  }

  // ---------- the calls of a promise ----------

  function CallsOn(calls: seq<Call>, p: PId): seq<Call> {
    if calls == [] then []
    else CallsOn(calls[..|calls| - 1], p) + (if calls[|calls| - 1].p == p then [calls[|calls| - 1]] else [])
  }

  /** What those of its subscriptions are owed, in order. */
  function Due(p: PId, subs: seq<Sub>, state: State, value: Value): seq<Call> {
    if subs == [] then [] else Due(p, subs[..|subs| - 1], state, value) + Owed(p, subs[|subs| - 1], state, value)
  }

  /** The same from the log of the runs. */
  function DueOf(p: PId, ran: seq<Ran>): seq<Call> {
    if ran == [] then []
    else var r := ran[|ran| - 1]; DueOf(p, ran[..|ran| - 1]) + Owed(p, r.sub, r.state, r.value)
  }

  lemma DueSnoc(p: PId, ran: seq<Ran>, r: Ran)
    ensures DueOf(p, ran + [r]) == DueOf(p, ran) + Owed(p, r.sub, r.state, r.value)
  {
    assert (ran + [r])[..|ran|] == ran;
  }

  lemma CallsSnoc(calls: seq<Call>, p: PId, r: PId, sub: Sub, state: State, value: Value)
    ensures CallsOn(calls + Owed(r, sub, state, value), p)
            == CallsOn(calls, p) + (if r == p then Owed(r, sub, state, value) else [])
  {
    var more := Owed(r, sub, state, value);
    if more == [] {
      assert calls + more == calls;
    } else {
      assert (calls + more)[..|calls|] == calls;
    }
  }

  lemma {:induction false} DueOfRuns(p: PId, ran: seq<Ran>, state: State, value: Value)
    requires forall r :: r in ran ==> r.state == state && r.value == value
    ensures DueOf(p, ran) == Due(p, SubsOf(ran), state, value)
  {
    hide Owed;
    if ran != [] {
      var n := |ran| - 1;
      DueOfRuns(p, ran[..n], state, value);
      assert ran[n] in ran;
      assert SubsOf(ran)[..|SubsOf(ran)| - 1] == SubsOf(ran[..n]);
    }
  }

  ghost predicate CallsMatch(s: Engine, p: PId) {
    CallsOn(s.calls, p) == if p < |s.heap| then DueOf(p, s.heap[p].ran) else []
  }

  lemma CallsStep(s: Engine, m: Move, p: PId)
    requires Good(s) && Enabled(s, m) && CallsMatch(s, p)
    ensures CallsMatch(Next(s, m), p)
  {
    MoveHandles(s, m);
    var s' := Next(s, m);
    hide Next, Good, Enabled, Owed, CallsOn;
    match Comes(s, m) {
      case None =>
      case Some((r, sub)) =>
        var state, value := s.heap[r].state, s.heap[r].result;
        CallsSnoc(s.calls, p, r, sub, state, value);
        DueSnoc(r, s.heap[r].ran, Ran(sub, state, value));
        assert CallsOn(s.calls, p) + [] == CallsOn(s.calls, p);
        hide DueOf;
    }
  }

  lemma NoCallsYet(p: PId)
    ensures CallsMatch(NEW, p)
  {}

  lemma {:induction false} CallsAlways(es: seq<Engine>, ms: seq<Move>, i: nat, p: PId)
    requires Execution(es, ms) && i < |es|
    ensures CallsMatch(es[i], p)
  {
    hide Next, Good, Enabled, CallsMatch;
    if i > 0 {
      MoveAt(es, ms, i - 1);
      CallsAlways(es, ms, i - 1, p);
      CallsStep(es[i - 1], ms[i - 1], p);
    } else {
      NoCallsYet(p);
    }
  }

  /** THE RIGHT CALLBACK, ONCE, IN ORDER, WITH THE VALUE. At any moment the calls made for p are those its first
      subscriptions are owed, in order: onFulfilled where it was given if p is fulfilled, onRejected if it is rejected,
      with the value or reason of p; none while p is pending, and all of them when control is back with the caller. */
  lemma CallsMade(es: seq<Engine>, ms: seq<Move>, i: nat, p: PId)
    requires Execution(es, ms) && i < |es| && p < |es[i].heap|
    ensures var s, q := es[i], es[i].heap[p];
            && |q.ran| <= |q.history|
            && CallsOn(s.calls, p) == Due(p, q.history[..|q.ran|], q.state, q.result)
            && (q.state == Pending ==> CallsOn(s.calls, p) == [])
            && (s.control.Idle? && q.state != Pending ==> CallsOn(s.calls, p) == Due(p, q.history, q.state, q.result))
  {
    var q := es[i].heap[p];
    CallsAlways(es, ms, i, p);
    RunsInOrder(es, ms, i, p);
    DueOfRuns(p, q.ran, q.state, q.result);
    SubsOfLength(q.ran);
    assert q.history[..|q.ran|] == SubsOf(q.ran);
    if es[i].control.Idle? {
      NothingLeftBehind(es, ms, i);
      assert q.state != Pending ==> q.history[..|q.ran|] == q.history;
    }
  }
}
