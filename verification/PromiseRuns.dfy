/** What Promises/A+ promises, over every execution of the engine. */
module PromiseRuns {
  import opened Common
  import opened Promises

  // ---------- nothing that happened is undone ----------

  /** From s to s' promises keep their fate, histories and logs only grow, and no new call of then is recorded. */
  ghost predicate Onward(s: Engine, s': Engine) {
    && |s.heap| <= |s'.heap| && s'.regs == s.regs
    && (forall p :: 0 <= p < |s.heap| ==> Kept(s.heap[p], s'.heap[p]))
    && (forall p, k :: 0 <= p < |s'.heap| && 0 <= k < |s'.heap[p].history| && s'.heap[p].history[k].Then? ==>
          p < |s.heap| && k < |s.heap[p].history|)
  }

  /** ... and nothing was run. */
  ghost predicate Calm(s: Engine, s': Engine) {
    && Onward(s, s')
    && (forall p :: 0 <= p < |s.heap| ==> s'.heap[p].ran == s.heap[p].ran)
    && (forall p :: |s.heap| <= p < |s'.heap| ==> s'.heap[p].ran == [])
  }

  ghost predicate Kept(q: Promise, q': Promise) {
    && q'.kind == q.kind && q.history <= q'.history && q.ran <= q'.ran
    && (q.state != Pending ==> q'.state == q.state && q'.result == q.result)
  }

  lemma OnwardTrans(a: Engine, b: Engine, c: Engine)
    requires Onward(a, b) && Onward(b, c)
    ensures Onward(a, c)
  {
    forall p | 0 <= p < |a.heap|
      ensures Kept(a.heap[p], c.heap[p])
    {
      assert Kept(a.heap[p], b.heap[p]) && Kept(b.heap[p], c.heap[p]);
    }
    forall p, k | 0 <= p < |c.heap| && 0 <= k < |c.heap[p].history| && c.heap[p].history[k].Then?
      ensures p < |a.heap| && k < |a.heap[p].history|
    {
      assert Kept(b.heap[p], c.heap[p]);
      assert b.heap[p].history[k].Then?;
    }
  }

  lemma CalmTrans(a: Engine, b: Engine, c: Engine)
    requires Calm(a, b) && Calm(b, c)
    ensures Calm(a, c)
  {
    OnwardTrans(a, b, c);
    hide Onward;
    assert |a.heap| <= |b.heap| <= |c.heap| by { HeapGrows(a, b); HeapGrows(b, c); }
  }

  lemma HeapGrows(s: Engine, s': Engine)
    requires Onward(s, s')
    ensures |s.heap| <= |s'.heap|
  {}

  lemma KeptSelf(q: Promise)
    ensures Kept(q, q)
  {}

  /** One promise replaced by a later version of itself, whatever happens to queue, control and enumerators. */
  lemma CalmUpdate(s: Engine, s': Engine, p: PId)
    requires p < |s.heap| == |s'.heap| && s'.heap == s.heap[p := s'.heap[p]] && s'.regs == s.regs
    requires Kept(s.heap[p], s'.heap[p]) && s'.heap[p].ran == s.heap[p].ran
    requires forall k :: |s.heap[p].history| <= k < |s'.heap[p].history| ==> !s'.heap[p].history[k].Then?
    ensures Calm(s, s')
  {
    forall r | 0 <= r < |s.heap|
      ensures Kept(s.heap[r], s'.heap[r])
    {
      KeptSelf(s.heap[r]);
    }
  }

  lemma CalmMake(s: Engine, kind: Kind)
    ensures Calm(s, MakePromise(s, kind))
  {
    var s' := MakePromise(s, kind);
    forall r | 0 <= r < |s.heap|
      ensures Kept(s.heap[r], s'.heap[r])
    {
      KeptSelf(s.heap[r]);
    }
  }

  lemma CalmBasics(s: Engine, p: PId, v: Value, sub: Sub)
    requires p < |s.heap| && !sub.Then?
    ensures Calm(s, Fulfill(s, p, v)) && Calm(s, Reject(s, p, v)) && Calm(s, Subscribe(s, p, sub))
  {
    hide Calm;
    CalmUpdate(s, Fulfill(s, p, v), p);
    CalmUpdate(s, Reject(s, p, v), p);
    CalmUpdate(s, Subscribe(s, p, sub), p);
  }

  lemma OnwardLog(s: Engine, p: PId, sub: Sub)
    requires p < |s.heap|
    ensures Onward(s, Log(s, p, sub))
  {
    forall r | 0 <= r < |s.heap|
      ensures Kept(s.heap[r], Log(s, p, sub).heap[r])
    {
      KeptSelf(s.heap[r]);
    }
  }

  lemma CalmResolve(s: Engine, p: PId, v: Value)
    requires p < |s.heap| && KnownValue(s, v)
    ensures Calm(s, Resolve(s, p, v))
  {
    if v.Own? && v != Own(p) {
      CalmBasics(s, p, s.heap[v.p].result, Adopt(p));
      CalmBasics(s, v.p, v, Adopt(p));
    } else {
      CalmBasics(s, p, v, Adopt(p));
      CalmBasics(s, p, SelfFulfillment, Adopt(p));
    }
  }

  /** The enumerators are none of it. */
  lemma CalmEnums(s: Engine, enums: seq<Enumerator>)
    ensures Calm(s, s.(enums := enums))
  {
    forall r | 0 <= r < |s.heap|
      ensures Kept(s.heap[r], s.heap[r])
    {
      KeptSelf(s.heap[r]);
    }
  }

  lemma CalmSettledAt(s: Engine, e: nat, i: nat, state: State, v: Value)
    requires e < |s.enums| && i < |s.enums[e].result| && s.enums[e].promise < |s.heap|
    ensures Calm(s, SettledAt(s, e, i, state, v))
  {
    hide Calm, Reject, Fulfill;
    var en := s.enums[e];
    var p := en.promise;
    var s1 := s;
    CalmSelf(s);
    if s.heap[p].state == Pending {
      if state == Rejected {
        var s0 := s.(enums := s.enums[e := en.(remaining := en.remaining - 1)]);
        CalmEnums(s, s0.enums);
        CalmBasics(s0, p, v, Adopt(0));
        s1 := Reject(s0, p, v);
        CalmTrans(s, s0, s1);
      } else {
        s1 := s.(enums := s.enums[e := en.(remaining := en.remaining - 1, result := en.result[i := Some(v)])]);
        CalmEnums(s, s1.enums);
      }
    }
    if s1.enums[e].remaining == 0 {
      CalmBasics(s1, p, AllResult(s1.enums[e].result), Adopt(0));
      CalmTrans(s, s1, SettledAt(s, e, i, state, v));
    }
  }

  lemma CalmEachEntry(s: Engine, e: nat, i: nat)
    requires e < |s.enums| && i < |s.enums[e].result| == |s.enums[e].entries| == |s.enums[e].sources|
    requires s.enums[e].promise < |s.heap| && KnownValue(s, s.enums[e].entries[i])
    ensures Calm(s, EachEntry(s, e, i))
  {
    hide Calm, SettledAt, Subscribe;
    match s.enums[e].entries[i] {
      case Own(q) =>
        if s.heap[q].state != Pending {
          CalmSettledAt(s, e, i, s.heap[q].state, s.heap[q].result);
        } else {
          var t := |s.heap|;
          var s1 := MakePromise(s, Entry(q, e, i));
          var s2 := Subscribe(s1, q, Adopt(t));
          var s3 := Subscribe(s2, t, AllEntry(e, i));
          CalmMake(s, Entry(q, e, i));
          CalmBasics(s1, q, Plain(0), Adopt(t));
          CalmTrans(s, s1, s2);
          CalmBasics(s2, t, Plain(0), AllEntry(e, i));
          CalmTrans(s, s2, s3);
          CalmEnums(s3, EachEntry(s, e, i).enums);
          CalmTrans(s, s3, EachEntry(s, e, i));
        }
      case _ =>
        CalmEnums(s, EachEntry(s, e, i).enums);
    }
  }

  lemma CalmEachEntryFrom(s: Engine, e: nat, i: nat)
    requires e < |s.enums| && i <= |s.enums[e].result| == |s.enums[e].entries| == |s.enums[e].sources|
    requires s.enums[e].promise < |s.heap| && forall v :: v in s.enums[e].entries ==> KnownValue(s, v)
    ensures Calm(s, EachEntryFrom(s, e, i))
    decreases |s.enums[e].result| - i
  {
    hide EachEntry, KnownValue, Calm;
    if i < |s.enums[e].result| {
      assert s.enums[e].entries[i] in s.enums[e].entries;
      var s1 := EachEntry(s, e, i);
      EachEntryShape(s, e, i);
      CalmEachEntry(s, e, i);
      CalmEachEntryFrom(s1, e, i + 1);
      CalmTrans(s, s1, EachEntryFrom(s1, e, i + 1));
    } else {
      CalmSelf(s);
    }
  }

  lemma CalmSelf(s: Engine)
    ensures Calm(s, s)
  {}

  lemma CalmAllStart(s: Engine, kind: Kind, en: Enumerator)
    ensures Calm(s, MakePromise(s, kind).(enums := s.enums + [en]))
  {
    hide Calm;
    var s0 := MakePromise(s, kind);
    CalmMake(s, kind);
    CalmEnums(s0, s.enums + [en]);
    CalmTrans(s, s0, s0.(enums := s.enums + [en]));
  }

  lemma CalmFulfill(s: Engine, s1: Engine, p: PId, v: Value)
    requires p < |s1.heap| && Calm(s, s1)
    ensures Calm(s, Fulfill(s1, p, v))
  {
    hide Calm, Fulfill;
    CalmBasics(s1, p, v, Adopt(0));
    CalmTrans(s, s1, Fulfill(s1, p, v));
  }

  lemma CalmAll(s: Engine, entries: seq<Value>)
    requires forall v :: v in entries ==> KnownValue(s, v)
    ensures Calm(s, All(s, entries))
  {
    hide Calm, Fulfill, EachEntryFrom;
    var e, p := |s.enums|, |s.heap|;
    var en := Enumerator(p, entries, |entries|, Nones(|entries|), Nones(|entries|));
    var s1 := MakePromise(s, AllOf(e)).(enums := s.enums + [en]);
    CalmAllStart(s, AllOf(e), en);
    if entries == [] {
      CalmFulfill(s, s1, p, AllResult([]));
    } else {
      assert forall v :: v in entries ==> KnownValue(s, v) && KnownValue(s1, v);
      CalmEachEntryFrom(s1, e, 0);
      AllShape(s1, e, 0);
      var s2 := EachEntryFrom(s1, e, 0);
      CalmTrans(s, s1, s2);
      CalmFulfill(s, s2, p, AllResult(s2.enums[e].result));
    }
  }

  lemma CalmComplete(s: Engine, child: PId, c: Completion)
    requires child < |s.heap| && (c.Return? ==> KnownValue(s, c.value))
    ensures Calm(s, Complete(s, child, c))
  {
    CalmBasics(s, child, ReturnedOwn, Adopt(0));
    CalmSelf(s);
    match c {
      case Return(v) => CalmResolve(s, child, v);
      case Throw(x) => CalmBasics(s, child, x, Adopt(0));
    }
  }

  /** What handling a subscription does beyond logging it. */
  lemma CalmHandle(s: Engine, i: nat, p: PId, sub: Sub, from: Option<nat>)
    requires Good(s) && i < |s.queue| && p < |s.heap| && sub in s.heap[p].history && s.heap[p].state != Pending
    ensures Calm(Log(s, p, sub), Handle(s, i, p, sub, from))
    ensures Onward(s, Handle(s, i, p, sub, from))
  {
    hide Calm;
    var state, value := s.heap[p].state, s.heap[p].result;
    assert GoodPromise(s, p) && GoodSub(s, p, sub);
    var s1 := Log(s, p, sub);
    var s2 := Advance(s1, i, p, from);
    OnwardLog(s, p, sub);
    CalmSelf(s1);
    CalmControl(s1, s2);
    if Handler(sub, state) {
      CalmControl(s1, Handle(s, i, p, sub, from));
    } else {
      CalmSelf(s2);
      match sub {
        case Then(_, child, _, _) =>
          CalmBasics(s2, child, value, Adopt(0));
        case Adopt(t) =>
          if state == Fulfilled {
            CalmResolve(s2, t, value);
          }
          CalmBasics(s2, t, value, Adopt(0));
        case AllEntry(e, k) =>
          CalmSettledAt(s2, e, k, state, value);
      }
      CalmTrans(s1, s2, Handle(s, i, p, sub, from));
    }
    CalmIsOnward(s1, Handle(s, i, p, sub, from));
    OnwardTrans(s, s1, Handle(s, i, p, sub, from));
  }

  lemma CalmIsOnward(s: Engine, s': Engine)
    requires Calm(s, s')
    ensures Onward(s, s')
  {}

  lemma CalmControl(s: Engine, s': Engine)
    requires s' == s.(control := s'.control, done := s'.done, calls := s'.calls)
    ensures Calm(s, s')
  {
    forall r | 0 <= r < |s.heap|
      ensures Kept(s.heap[r], s'.heap[r])
    {
      KeptSelf(s.heap[r]);
    }
  }

  /** A call of then: calm, but for the one registration `sub` it adds. */
  ghost predicate Registers(s: Engine, s': Engine, p: PId, sub: Sub) {
    && p < |s.heap| <= |s'.heap| && s'.regs == s.regs + 1
    && (forall r :: 0 <= r < |s.heap| ==> Kept(s.heap[r], s'.heap[r]) && s'.heap[r].ran == s.heap[r].ran)
    && (forall r :: |s.heap| <= r < |s'.heap| ==> s'.heap[r].ran == [])
    && |s'.heap[p].history| == |s.heap[p].history| + 1
    && s'.heap[p].history[|s.heap[p].history|] == sub
    && (forall r, k :: 0 <= r < |s'.heap| && 0 <= k < |s'.heap[r].history| && s'.heap[r].history[k].Then? ==>
          (r < |s.heap| && k < |s.heap[r].history|) || (r == p && k == |s.heap[p].history|))
  }

  /** What a call of then on p registers: the next number, the new promise, and which callbacks it was given. */
  function Registration(s: Engine, m: Move): Sub
    requires m.UserThen?
  {
    Then(s.regs, |s.heap|, m.onFulfilled, m.onRejected)
  }

  /** One move: either onward without a new registration, or a call of then. No settled promise changes. */
  lemma MoveKeeps(s: Engine, m: Move)
    requires Good(s) && Enabled(s, m)
    ensures if m.UserThen? then Registers(s, Next(s, m), m.p, Registration(s, m)) else Onward(s, Next(s, m))
    ensures !m.FlushTurn? && !m.PublishTurn? && !m.UserThen? ==> Calm(s, Next(s, m))
  {
    hide Registers, Good, Onward;
    match m {
      case UserNew => CalmMake(s, Constructed);
      case UserResolve(p, v) => CalmResolve(s, p, v);
      case UserReject(p, v) => CalmBasics(s, p, v, Adopt(0));
      case UserThen(p, f, r) => ThenRegisters(s, p, f, r);
      case UserAll(entries) => CalmAll(s, entries);
      case UserReturns(c) => UserReturnsCalm(s, c);
      case FlushTurn => FlushTurnOnward(s);
      case PublishTurn => PublishTurnOnward(s);
    }
  }

  lemma ThenRegisters(s: Engine, p: PId, f: bool, r: bool)
    requires p < |s.heap|
    ensures Registers(s, ThenCall(s, p, f, r), p, Then(s.regs, |s.heap|, f, r))
    ensures |ThenCall(s, p, f, r).heap| == |s.heap| + 1 && ThenCall(s, p, f, r).heap[|s.heap|].state == Pending
  {
    var s' := ThenCall(s, p, f, r);
    forall k | 0 <= k < |s.heap|
      ensures Kept(s.heap[k], s'.heap[k])
    {
      KeptSelf(s.heap[k]);
    }
  }

  lemma UserReturnsCalm(s: Engine, c: Completion)
    requires Good(s) && Enabled(s, UserReturns(c))
    ensures Calm(s, Next(s, UserReturns(c)))
  {
    var Running(i, p, sub, from) := s.control;
    assert GoodPromise(s, p) && GoodSub(s, p, sub);
    var s1 := Advance(s, i, p, from);
    CalmComplete(s1, sub.child, c);
    CalmSelf(s);
    assert Calm(s, s1);
    CalmTrans(s, s1, Complete(s1, sub.child, c));
  }

  lemma FlushTurnOnward(s: Engine)
    requires Good(s) && Enabled(s, FlushTurn)
    ensures Onward(s, Next(s, FlushTurn))
  {
    var i := s.control.i;
    if i < |s.queue| {
      var job := s.queue[i];
      assert GoodJob(s, job);
      if job.InvokeThen? {
        CalmHandle(s, i, job.p, job.sub, None);
      }
    }
  }

  lemma PublishTurnOnward(s: Engine)
    requires Good(s) && Enabled(s, PublishTurn)
    ensures Onward(s, Next(s, PublishTurn))
  {
    var Publishing(i, p, j) := s.control;
    assert GoodPromise(s, p);
    if j < |s.heap[p].subscribers| {
      CalmHandle(s, i, p, s.heap[p].subscribers[j], Some(j));
    }
  }

  // ---------- every call of then has its own number and its own child ----------

  ghost predicate Numbered(s: Engine) {
    && (forall p, k :: 0 <= p < |s.heap| && 0 <= k < |s.heap[p].history| && s.heap[p].history[k].Then? ==>
          s.heap[p].history[k].reg < s.regs && s.heap[p].history[k].child < |s.heap|)
    && (forall p, k, r, l | 0 <= p < |s.heap| && 0 <= k < |s.heap[p].history| && s.heap[p].history[k].Then?
                          && 0 <= r < |s.heap| && 0 <= l < |s.heap[r].history| && s.heap[r].history[l].Then?
                          && (s.heap[p].history[k].reg == s.heap[r].history[l].reg
                              || s.heap[p].history[k].child == s.heap[r].history[l].child) :: p == r && k == l)
  }

  lemma NumberedStep(s: Engine, m: Move)
    requires Good(s) && Enabled(s, m) && Numbered(s)
    ensures Numbered(Next(s, m))
  {
    MoveKeeps(s, m);
    var s' := Next(s, m);
    assert m.UserThen? ==> |s'.heap| == |s.heap| + 1 by {
      if m.UserThen? {
        ThenRegisters(s, m.p, m.onFulfilled, m.onRejected);
      }
    }
    hide Next, Good, Enabled;
    forall p, k | 0 <= p < |s'.heap| && 0 <= k < |s'.heap[p].history| && s'.heap[p].history[k].Then?
      ensures (p < |s.heap| && k < |s.heap[p].history| && s'.heap[p].history[k] == s.heap[p].history[k])
              || (m.UserThen? && p == m.p && k == |s.heap[p].history| && s'.heap[p].history[k] == Registration(s, m))
    {
      if p < |s.heap| {
        assert Kept(s.heap[p], s'.heap[p]);
      }
    }
  }

  // ---------- executions ----------

  ghost predicate MoveOk(es: seq<Engine>, ms: seq<Move>, i: nat) {
    && i < |ms| && i + 1 < |es| && Good(es[i]) && Enabled(es[i], ms[i]) && es[i + 1] == Next(es[i], ms[i])
  }

  ghost predicate Execution(es: seq<Engine>, ms: seq<Move>) {
    |es| == |ms| + 1 && es[0] == NEW && forall i: nat :: i < |ms| ==> MoveOk(es, ms, i)
  }

  lemma MoveAt(es: seq<Engine>, ms: seq<Move>, i: nat)
    requires Execution(es, ms) && i < |ms|
    ensures Good(es[i]) && Enabled(es[i], ms[i]) && es[i + 1] == Next(es[i], ms[i])
  {
    assert MoveOk(es, ms, i);
  }

  lemma NewInv()
    ensures Inv(NEW) && Numbered(NEW)
  {}

  lemma {:induction false} Always(es: seq<Engine>, ms: seq<Move>, i: nat)
    requires Execution(es, ms) && i < |es|
    ensures Inv(es[i]) && Numbered(es[i])
  {
    hide Next, Enabled, Numbered, GoodControl, GoodPromise, GoodEnumerator, GoodJobs, Account, Fifo;
    if i > 0 {
      MoveAt(es, ms, i - 1);
      Always(es, ms, i - 1);
      NextInv(es[i - 1], ms[i - 1]);
      NumberedStep(es[i - 1], ms[i - 1]);
    } else {
      NewInv();
    }
  }

  /** 2.1: a settled promise never changes its state or its value; and no run is ever forgotten. */
  lemma {:induction false} SettledForever(es: seq<Engine>, ms: seq<Move>, i: nat, j: nat, p: PId)
    requires Execution(es, ms) && i <= j < |es| && p < |es[i].heap|
    ensures p < |es[j].heap| && Kept(es[i].heap[p], es[j].heap[p])
    decreases j - i
  {
    hide Next, Good, Enabled;
    if i < j {
      MoveAt(es, ms, j - 1);
      SettledForever(es, ms, i, j - 1, p);
      MoveKeeps(es[j - 1], ms[j - 1]);
      assert Kept(es[j - 1].heap[p], es[j].heap[p]);
    }
  }

  /** 2.2.2, 2.2.3 and 2.2.6: at any moment, what has run on p is an initial part of what was registered on it, in the
      order of registration; nothing has run while p is pending; and every run got the state and the value p has. */
  lemma RunsInOrder(es: seq<Engine>, ms: seq<Move>, i: nat, p: PId)
    requires Execution(es, ms) && i < |es| && p < |es[i].heap|
    ensures var q := es[i].heap[p];
            && SubsOf(q.ran) <= q.history
            && (q.state == Pending ==> q.ran == [])
            && forall r :: r in q.ran ==> r.state == q.state && r.value == q.result
  {
    Always(es, ms, i);
    assert Account(es[i], p);
  }

  lemma {:induction false} SubsOfLength(ran: seq<Ran>)
    ensures |SubsOf(ran)| == |ran|
    ensures forall k :: 0 <= k < |ran| ==> SubsOf(ran)[k] == ran[k].sub
  {
    if ran != [] {
      SubsOfLength(ran[..|ran| - 1]);
    }
  }

  /** No call of then has its callback run twice, on whichever promise it was made. */
  lemma RunAtMostOnce(es: seq<Engine>, ms: seq<Move>, i: nat, p: PId, k: nat, r: PId, l: nat)
    requires Execution(es, ms) && i < |es|
    requires p < |es[i].heap| && k < |es[i].heap[p].ran| && es[i].heap[p].ran[k].sub.Then?
    requires r < |es[i].heap| && l < |es[i].heap[r].ran| && es[i].heap[r].ran[l].sub.Then?
    requires es[i].heap[p].ran[k].sub.reg == es[i].heap[r].ran[l].sub.reg
    ensures p == r && k == l
  {
    Always(es, ms, i);
    RunsInOrder(es, ms, i, p);
    RunsInOrder(es, ms, i, r);
    SubsOfLength(es[i].heap[p].ran);
    SubsOfLength(es[i].heap[r].ran);
    assert es[i].heap[p].history[k] == es[i].heap[p].ran[k].sub;
    assert es[i].heap[r].history[l] == es[i].heap[r].ran[l].sub;
  }

  /** When control is back with the caller, flush has left nothing behind: the queue is empty, every job ever queued has
      run, in the order of queueing, and every subscription of every settled promise has run exactly once. */
  lemma NothingLeftBehind(es: seq<Engine>, ms: seq<Move>, i: nat)
    requires Execution(es, ms) && i < |es| && es[i].control.Idle?
    ensures es[i].queue == [] && es[i].done == es[i].queued
    ensures forall p :: 0 <= p < |es[i].heap| && es[i].heap[p].state != Pending ==>
              SubsOf(es[i].heap[p].ran) == es[i].heap[p].history
  {
    Always(es, ms, i);
    forall p | 0 <= p < |es[i].heap| && es[i].heap[p].state != Pending
      ensures SubsOf(es[i].heap[p].ran) == es[i].heap[p].history
    {
      assert Account(es[i], p);
    }
  }

  /** flush is first in, first out: at any moment the finished jobs are an initial part of the queued ones. */
  lemma FirstInFirstOut(es: seq<Engine>, ms: seq<Move>, i: nat)
    requires Execution(es, ms) && i < |es|
    ensures Good(es[i]) && es[i].done <= es[i].queued
    ensures es[i].queued[|es[i].done|..] == From(es[i].queue, Current(es[i]))
  {
    Always(es, ms, i);
  }

  /** The synchronous scheduler never starts a flush inside a flush: while jobs or callbacks run, the queue is not
      empty, so asap only appends. */
  lemma FlushNeverNests(es: seq<Engine>, ms: seq<Move>, i: nat, job: Job)
    requires Execution(es, ms) && i < |es| && !es[i].control.Idle?
    ensures Asap(es[i], job).control == es[i].control
  {
    Always(es, ms, i);
  }

  /** A fulfilled promise never holds an own promise: what it was resolved with was adopted. */
  lemma FulfilledWithPlainValue(es: seq<Engine>, ms: seq<Move>, i: nat, p: PId)
    requires Execution(es, ms) && i < |es| && p < |es[i].heap| && es[i].heap[p].state == Fulfilled
    ensures !es[i].heap[p].result.Own?
  {
    Always(es, ms, i);
    assert GoodPromise(es[i], p);
  }
}
