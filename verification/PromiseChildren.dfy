/** What becomes of the promise that then returned: section 2.2.7 of Promises/A+, over every execution. */
module PromiseChildren {
  import opened Common
  import opened Promises
  import opened PromiseRuns
  import opened PromiseCalls
  import PromiseAll

  // ---------- what leaves a promise alone ----------

  /** Promise c is as settled as it was, and nothing new is to adopt into it. */
  ghost predicate Spares(s: Engine, s': Engine, c: PId) {
    && c < |s.heap| <= |s'.heap|
    && s'.heap[c].state == s.heap[c].state && s'.heap[c].result == s.heap[c].result
    && forall q, l :: 0 <= q < |s'.heap| && 0 <= l < |s'.heap[q].history| && s'.heap[q].history[l] == Adopt(c) ==>
         q < |s.heap| && l < |s.heap[q].history| && s.heap[q].history[l] == Adopt(c)
  }

  lemma SparesTrans(a: Engine, b: Engine, d: Engine, c: PId)
    requires Spares(a, b, c) && Spares(b, d, c)
    ensures Spares(a, d, c)
  {}

  lemma SparesSelf(s: Engine, s': Engine, c: PId)
    requires c < |s.heap| && s'.heap == s.heap
    ensures Spares(s, s', c)
  {}

  lemma SparesUpdate(s: Engine, s': Engine, p: PId, c: PId)
    requires p < |s.heap| == |s'.heap| && c < |s.heap| && s'.heap == s.heap[p := s'.heap[p]]
    requires s.heap[p].history <= s'.heap[p].history
    requires forall k :: |s.heap[p].history| <= k < |s'.heap[p].history| ==> s'.heap[p].history[k] != Adopt(c)
    requires p == c ==> s'.heap[c].state == s.heap[c].state && s'.heap[c].result == s.heap[c].result
    ensures Spares(s, s', c)
  {}

  lemma SparesMake(s: Engine, kind: Kind, c: PId)
    requires c < |s.heap|
    ensures Spares(s, MakePromise(s, kind), c)
  {}

  lemma SparesBasics(s: Engine, p: PId, v: Value, sub: Sub, c: PId)
    requires p < |s.heap| && c < |s.heap|
    ensures p != c ==> Spares(s, Fulfill(s, p, v), c) && Spares(s, Reject(s, p, v), c)
    ensures sub != Adopt(c) ==> Spares(s, Subscribe(s, p, sub), c)
  {
    hide Spares;
    if p != c {
      SparesUpdate(s, Fulfill(s, p, v), p, c);
      SparesUpdate(s, Reject(s, p, v), p, c);
    }
    if sub != Adopt(c) {
      SparesUpdate(s, Subscribe(s, p, sub), p, c);
    }
  }

  lemma SparesResolve(s: Engine, p: PId, v: Value, c: PId)
    requires p < |s.heap| && c < |s.heap| && p != c && KnownValue(s, v)
    ensures Spares(s, Resolve(s, p, v), c)
  {
    hide Spares, Fulfill, Reject, Subscribe;
    SparesBasics(s, p, v, Adopt(p), c);
    SparesBasics(s, p, SelfFulfillment, Adopt(p), c);
    if v.Own? {
      SparesBasics(s, p, s.heap[v.p].result, Adopt(p), c);
      SparesBasics(s, v.p, v, Adopt(p), c);
    }
  }

  lemma SparesSettledAt(s: Engine, e: nat, i: nat, state: State, v: Value, c: PId)
    requires e < |s.enums| && i < |s.enums[e].result| && s.enums[e].promise < |s.heap|
    requires c < |s.heap| && s.enums[e].promise != c
    ensures Spares(s, SettledAt(s, e, i, state, v), c)
  {
    hide Spares, Reject, Fulfill;
    var en := s.enums[e];
    var p := en.promise;
    var s1 := s;
    SparesSelf(s, s, c);
    if s.heap[p].state == Pending {
      if state == Rejected {
        var s0 := s.(enums := s.enums[e := en.(remaining := en.remaining - 1)]);
        SparesSelf(s, s0, c);
        SparesBasics(s0, p, v, AllEntry(e, i), c);
        s1 := Reject(s0, p, v);
        SparesTrans(s, s0, s1, c);
      } else {
        s1 := s.(enums := s.enums[e := en.(remaining := en.remaining - 1, result := en.result[i := Some(v)])]);
        SparesSelf(s, s1, c);
      }
    }
    if s1.enums[e].remaining == 0 {
      SparesBasics(s1, p, AllResult(s1.enums[e].result), AllEntry(e, i), c);
      SparesTrans(s, s1, SettledAt(s, e, i, state, v), c);
    }
  }

  lemma SparesEachEntry(s: Engine, e: nat, i: nat, c: PId)
    requires e < |s.enums| && i < |s.enums[e].result| == |s.enums[e].entries| == |s.enums[e].sources|
    requires s.enums[e].promise < |s.heap| && KnownValue(s, s.enums[e].entries[i])
    requires c < |s.heap| && s.enums[e].promise != c
    ensures Spares(s, EachEntry(s, e, i), c)
  {
    hide Spares, SettledAt, Subscribe;
    match s.enums[e].entries[i] {
      case Own(q) =>
        if s.heap[q].state != Pending {
          SparesSettledAt(s, e, i, s.heap[q].state, s.heap[q].result, c);
        } else {
          var t := |s.heap|;
          var s1 := MakePromise(s, Entry(q, e, i));
          var s2 := Subscribe(s1, q, Adopt(t));
          var s3 := Subscribe(s2, t, AllEntry(e, i));
          SparesMake(s, Entry(q, e, i), c);
          SparesBasics(s1, q, Plain(0), Adopt(t), c);
          SparesTrans(s, s1, s2, c);
          SparesBasics(s2, t, Plain(0), AllEntry(e, i), c);
          SparesTrans(s, s2, s3, c);
          SparesSelf(s3, EachEntry(s, e, i), c);
          SparesTrans(s, s3, EachEntry(s, e, i), c);
        }
      case _ =>
        SparesSelf(s, EachEntry(s, e, i), c);
    }
  }

  lemma SparesEachEntryFrom(s: Engine, e: nat, i: nat, c: PId)
    requires e < |s.enums| && i <= |s.enums[e].result| == |s.enums[e].entries| == |s.enums[e].sources|
    requires s.enums[e].promise < |s.heap| && forall v :: v in s.enums[e].entries ==> KnownValue(s, v)
    requires c < |s.heap| && s.enums[e].promise != c
    ensures Spares(s, EachEntryFrom(s, e, i), c)
    decreases |s.enums[e].result| - i
  {
    hide EachEntry, KnownValue, Spares;
    if i < |s.enums[e].result| {
      assert s.enums[e].entries[i] in s.enums[e].entries;
      var s1 := EachEntry(s, e, i);
      EachEntryShape(s, e, i);
      SparesEachEntry(s, e, i, c);
      SparesEachEntryFrom(s1, e, i + 1, c);
      SparesTrans(s, s1, EachEntryFrom(s1, e, i + 1), c);
    } else {
      SparesSelf(s, s, c);
    }
  }

  lemma SparesAll(s: Engine, entries: seq<Value>, c: PId)
    requires c < |s.heap| && forall v :: v in entries ==> KnownValue(s, v)
    ensures Spares(s, All(s, entries), c)
  {
    hide Spares, Fulfill, EachEntryFrom;
    var e, p := |s.enums|, |s.heap|;
    var en := Enumerator(p, entries, |entries|, Nones(|entries|), Nones(|entries|));
    var s0 := MakePromise(s, AllOf(e));
    var s1 := s0.(enums := s.enums + [en]);
    SparesMake(s, AllOf(e), c);
    SparesSelf(s0, s1, c);
    SparesTrans(s, s0, s1, c);
    if entries == [] {
      SparesBasics(s1, p, AllResult([]), AllEntry(e, 0), c);
      SparesTrans(s, s1, All(s, entries), c);
    } else {
      assert forall v :: v in entries ==> KnownValue(s, v) && KnownValue(s1, v);
      SparesEachEntryFrom(s1, e, 0, c);
      AllShape(s1, e, 0);
      var s2 := EachEntryFrom(s1, e, 0);
      SparesTrans(s, s1, s2, c);
      SparesBasics(s2, p, AllResult(s2.enums[e].result), AllEntry(e, 0), c);
      if s2.enums[e].remaining == 0 {
        SparesTrans(s, s2, All(s, entries), c);
      }
    }
  }

  lemma SparesThen(s: Engine, p: PId, f: bool, r: bool, c: PId)
    requires p < |s.heap| && c < |s.heap|
    ensures Spares(s, ThenCall(s, p, f, r), c)
  {
    hide Spares, Subscribe;
    var sub := Then(s.regs, |s.heap|, f, r);
    var s0 := MakePromise(s, Child);
    var s1 := s0.(regs := s.regs + 1);
    SparesMake(s, Child, c);
    SparesSelf(s0, s1, c);
    SparesTrans(s, s0, s1, c);
    if s.heap[p].state != Pending {
      SparesUpdate(s1, ThenCall(s, p, f, r), p, c);
    } else {
      SparesBasics(s1, p, Plain(0), sub, c);
    }
    SparesTrans(s, s1, ThenCall(s, p, f, r), c);
  }

  lemma SparesComplete(s: Engine, child: PId, done: Completion, c: PId)
    requires child < |s.heap| && c < |s.heap| && child != c && (done.Return? ==> KnownValue(s, done.value))
    ensures Spares(s, Complete(s, child, done), c)
  {
    hide Spares, Reject, Resolve;
    SparesSelf(s, s, c);
    SparesBasics(s, child, ReturnedOwn, Adopt(child), c);
    match done {
      case Return(v) => SparesResolve(s, child, v, c);
      case Throw(x) => SparesBasics(s, child, x, Adopt(child), c);
    }
  }

  // ---------- one move ----------

  /** The promise a subscription settles when no callback of a user is called for it. */
  function Settles(sub: Sub): Option<PId> {
    match sub
    case Then(_, child, _, _) => Some(child)
    case Adopt(t) => Some(t)
    case AllEntry(_, _) => None
  }

  /** The promises of the enumerators are their own. */
  ghost predicate OwnPromises(s: Engine) {
    forall e :: 0 <= e < |s.enums| ==> s.enums[e].promise < |s.heap| && s.heap[s.enums[e].promise].kind == AllOf(e)
  }

  lemma SparesHandle(s: Engine, i: nat, p: PId, sub: Sub, from: Option<nat>, c: PId)
    requires Good(s) && i < |s.queue| && p < |s.heap| && sub in s.heap[p].history && s.heap[p].state != Pending
    requires OwnPromises(s) && c < |s.heap| && s.heap[c].kind == Child
    requires Settles(sub) != Some(c) || Owed(p, sub, s.heap[p].state, s.heap[p].result) != []
    ensures Spares(s, Handle(s, i, p, sub, from), c)
  {
    hide Spares, Reject, Resolve, SettledAt, Fulfill;
    var state, value := s.heap[p].state, s.heap[p].result;
    assert GoodPromise(s, p) && GoodSub(s, p, sub);
    var s1 := Log(s, p, sub);
    var s2 := Advance(s1, i, p, from);
    SparesUpdate(s, s1, p, c);
    SparesSelf(s1, s2, c);
    SparesTrans(s, s1, s2, c);
    var s' := Handle(s, i, p, sub, from);
    if Handler(sub, state) {
      SparesSelf(s1, s', c);
      SparesTrans(s, s1, s', c);
    } else {
      SparesSelf(s2, s2, c);
      match sub {
        case Then(_, child, _, _) => SparesBasics(s2, child, value, Adopt(child), c);
        case Adopt(t) =>
          SparesBasics(s2, t, value, Adopt(t), c);
          if state == Fulfilled {
            SparesResolve(s2, t, value, c);
          }
        case AllEntry(e, k) =>
          SparesSettledAt(s2, e, k, state, value, c);
      }
      SparesTrans(s, s2, s', c);
    }
  }

  /** The one promise that a move may settle for a subscription or a callback. */
  function Subject(s: Engine, m: Move): Option<PId>
    requires Good(s) && Enabled(s, m)
  {
    if m.UserReturns? then Some(s.control.sub.child)
    else if Comes(s, m).None? then None
    else Settles(Comes(s, m).value.1)
  }

  /** A child that is not the subject of the move is left alone, and so is one whose callback is now called. */
  lemma MoveSpares(s: Engine, m: Move, c: PId)
    requires Good(s) && OwnPromises(s) && Enabled(s, m) && c < |s.heap| && s.heap[c].kind == Child
    requires Subject(s, m) != Some(c) || (Comes(s, m).Some? && Next(s, m).control.Running?)
    ensures Spares(s, Next(s, m), c)
  {
    match m {
      case UserNew => SparesMake(s, Constructed, c);
      case UserResolve(p, v) => SparesResolve(s, p, v, c);
      case UserReject(p, v) => SparesBasics(s, p, v, Adopt(p), c);
      case UserThen(p, f, r) => SparesThen(s, p, f, r, c);
      case UserAll(entries) => SparesAll(s, entries, c);
      case UserReturns(done) =>
        var Running(i, p, sub, from) := s.control;
        assert GoodPromise(s, p) && GoodSub(s, p, sub);
        var s1 := Advance(s, i, p, from);
        SparesSelf(s, s1, c);
        SparesComplete(s1, sub.child, done, c);
        SparesTrans(s, s1, Next(s, m), c);
      case _ => TurnSpares(s, m, c);
    }
  }

  lemma TurnSpares(s: Engine, m: Move, c: PId)
    requires Good(s) && OwnPromises(s) && Enabled(s, m) && c < |s.heap| && s.heap[c].kind == Child
    requires m.FlushTurn? || m.PublishTurn?
    requires Subject(s, m) != Some(c) || (Comes(s, m).Some? && Next(s, m).control.Running?)
    ensures Spares(s, Next(s, m), c)
  {
    hide Spares;
    if Comes(s, m).Some? {
      ComesGood(s, m);
      var (p, sub) := Comes(s, m).value;
      var i, from := s.control.i, if m.FlushTurn? then None else Some(s.control.j);
      RunningIsOwed(s, i, p, sub, from);
      hide Handle;
      SparesHandle(s, i, p, sub, from, c);
    } else {
      match m {
        case FlushTurn => SparesSelf(s, Next(s, m), c);
        case PublishTurn => SparesUpdate(s, Next(s, m), s.control.p, c);
      }
    }
  }

  lemma RunningIsOwed(s: Engine, i: nat, p: PId, sub: Sub, from: Option<nat>)
    requires Good(s) && i < |s.queue| && p < |s.heap| && sub in s.heap[p].history && s.heap[p].state != Pending
    requires !s.control.Running?
    ensures Handle(s, i, p, sub, from).control.Running? <==> Owed(p, sub, s.heap[p].state, s.heap[p].result) != []
    ensures var s' := Handle(s, i, p, sub, from);
            s'.control.Running? ==> s'.control.p == p && s'.control.sub == sub
  {
    hide Good, Log, KnownValue, SameShape;
  }

  // ---------- the life of a child ----------

  /** Nothing has settled c and nothing is to adopt into it. */
  ghost predicate Untouched(s: Engine, c: PId)
    requires c < |s.heap|
  {
    && s.heap[c].state == Pending
    && forall q, l :: 0 <= q < |s.heap| && 0 <= l < |s.heap[q].history| ==> s.heap[q].history[l] != Adopt(c)
  }

  /** Subscription k of p has not run, or its callback has not come back. */
  predicate Undone(s: Engine, p: PId, k: nat)
    requires p < |s.heap|
  {
    k >= |s.heap[p].ran| || (s.control.Running? && s.control.p == p && k + 1 == |s.heap[p].ran|)
  }

  predicate SameFate(s: Engine, c: PId, p: PId)
    requires c < |s.heap| && p < |s.heap|
  {
    s.heap[p].state != Pending && s.heap[c].state == s.heap[p].state && s.heap[c].result == s.heap[p].result
  }

  /** Call k of then on p: its promise is untouched until its turn has come; without the callback for p's fate it then has
      p's fate. */
  ghost predicate Life(s: Engine, p: PId, k: nat)
    requires p < |s.heap| && k < |s.heap[p].history| && s.heap[p].history[k].Then?
  {
    var sub := s.heap[p].history[k];
    && sub.child < |s.heap| && s.heap[sub.child].kind == Child
    && (Undone(s, p, k) ==> Untouched(s, sub.child))
    && (k < |s.heap[p].ran| && Owed(p, sub, s.heap[p].state, s.heap[p].result) == [] ==> SameFate(s, sub.child, p))
  }

  ghost predicate AllLives(s: Engine) {
    forall p: nat, k: nat :: p < |s.heap| && k < |s.heap[p].history| && s.heap[p].history[k].Then? ==> Life(s, p, k)
  }

  /** The callback that runs is the last one that was started, and was owed. */
  ghost predicate LastRuns(s: Engine) {
    s.control.Running? ==>
      && s.control.p < |s.heap| && s.heap[s.control.p].ran != []
      && var q := s.heap[s.control.p];
         q.ran[|q.ran| - 1].sub == s.control.sub && Owed(s.control.p, s.control.sub, q.state, q.result) != []
  }

  /** What is known of every state of an execution. */
  ghost predicate Sound(s: Engine) {
    Inv(s) && Numbered(s) && OwnPromises(s) && LastRuns(s)
  }

  /** The n-th subscription to run is the n-th registered. */
  lemma RanIsHistory(s: Engine, p: PId)
    requires Inv(s) && p < |s.heap|
    ensures var q := s.heap[p];
            && |q.ran| <= |q.history| && (q.ran != [] ==> q.state != Pending)
            && forall k :: 0 <= k < |q.ran| ==> q.ran[k].sub == q.history[k]
  {
    assert Account(s, p);
    SubsOfLength(s.heap[p].ran);
    hide SubsOf;
  }

  lemma GoodNow(s: Engine)
    requires Inv(s)
    ensures Good(s)
  {}

  /** The subscription handled is the next one of its promise. */
  lemma ComesNext(s: Engine, m: Move)
    requires Inv(s) && Enabled(s, m) && Comes(s, m).Some?
    ensures var (p, sub) := Comes(s, m).value;
            && p < |s.heap| && s.heap[p].state != Pending
            && |s.heap[p].ran| < |s.heap[p].history| && s.heap[p].history[|s.heap[p].ran|] == sub
  {
    var (p, sub) := Comes(s, m).value;
    ComesGood(s, m);
    var i, from := s.control.i, if m.FlushTurn? then None else Some(s.control.j);
    assert AtSub(s, i, p, sub, from) && GoodControl(s) && Account(s, p);
    hide Good, Enabled, Comes, GoodControl, AtSub, Outstanding, Publications;
    NextOutstanding(s, i, p, sub, from);
    SubsOfLength(s.heap[p].ran);
    hide SubsOf;
  }

  lemma NextOutstanding(s: Engine, i: nat, p: PId, sub: Sub, from: Option<nat>)
    requires GoodControl(s) && AtSub(s, i, p, sub, from)
    ensures Outstanding(s, p) != [] && Outstanding(s, p)[0] == sub
  {
    var s' := Advance(Log(s, p, sub), i, p, from);
    assert Logged(s, i, p, sub, from, s');
    LoggedOutstanding(s, i, p, sub, from, s', p);
  }

  /** A callback starts with the move that handles its subscription, and is over with the one in which it returns. */
  lemma ControlStep(s: Engine, m: Move)
    requires Good(s) && Enabled(s, m)
    ensures var s' := Next(s, m);
            && (s'.control.Running? ==>
                  || (Comes(s, m) == Some((s'.control.p, s'.control.sub)) && !s.control.Running?)
                  || (Comes(s, m) == None && s.control == s'.control))
            && (m.UserReturns? ==> !s'.control.Running?)
  {
    if m.FlushTurn? || m.PublishTurn? {
      TurnControl(s, m);
    } else {
      UserCalls(s, m);
    }
  }

  lemma TurnControl(s: Engine, m: Move)
    requires Good(s) && Enabled(s, m) && (m.FlushTurn? || m.PublishTurn?)
    ensures var s' := Next(s, m);
            s'.control.Running? ==> Comes(s, m) == Some((s'.control.p, s'.control.sub)) && !s.control.Running?
  {
    if Comes(s, m).Some? {
      ComesGood(s, m);
      var (p, sub) := Comes(s, m).value;
      RunningIsOwed(s, s.control.i, p, sub, if m.FlushTurn? then None else Some(s.control.j));
      hide Handle;
    }
  }

  lemma LastRunsStep(s: Engine, m: Move)
    requires Good(s) && Enabled(s, m) && LastRuns(s)
    ensures LastRuns(Next(s, m))
  {
    ControlStep(s, m);
    MoveHandles(s, m);
    MoveKeeps(s, m);
    var s' := Next(s, m);
    if s'.control.Running? {
      var p := s'.control.p;
      if Comes(s, m).Some? {
        ComesGood(s, m);
        EnteredIsOwed(s, m);
      }
      assert Kept(s.heap[p], s'.heap[p]);
    }
    hide Next, Good, Enabled, Comes, Owed;
  }

  lemma EnteredIsOwed(s: Engine, m: Move)
    requires Good(s) && Enabled(s, m) && Comes(s, m).Some? && Next(s, m).control.Running?
    ensures var (p, sub) := Comes(s, m).value;
            p < |s.heap| && Owed(p, sub, s.heap[p].state, s.heap[p].result) != []
  {
    ComesGood(s, m);
    var (p, sub) := Comes(s, m).value;
    RunningIsOwed(s, s.control.i, p, sub, if m.FlushTurn? then None else Some(s.control.j));
    hide Handle;
  }

  lemma OwnPromisesNow(s: Engine)
    requires PromiseAll.AInv(s)
    ensures OwnPromises(s)
  {
    forall e | 0 <= e < |s.enums|
      ensures s.enums[e].promise < |s.heap| && s.heap[s.enums[e].promise].kind == AllOf(e)
    {
      assert PromiseAll.Complete(s, e);
    }
  }

  lemma {:induction false} SoundAlways(es: seq<Engine>, ms: seq<Move>, i: nat)
    requires Execution(es, ms) && i < |es|
    ensures Sound(es[i])
  {
    hide Next, Good, Enabled, LastRuns, OwnPromises;
    Always(es, ms, i);
    PromiseAll.AlwaysAll(es, ms, i);
    OwnPromisesNow(es[i]);
    if i > 0 {
      MoveAt(es, ms, i - 1);
      SoundAlways(es, ms, i - 1);
      LastRunsStep(es[i - 1], ms[i - 1]);
    } else {
      NothingRuns();
    }
  }

  lemma NothingRuns()
    ensures LastRuns(NEW)
  {}

  /** Call k of then on p is known by the promise it returned. */
  lemma OnePlace(s: Engine, p: PId, k: nat, q: PId, l: nat)
    requires Numbered(s) && p < |s.heap| && k < |s.heap[p].history| && s.heap[p].history[k].Then?
    requires q < |s.heap| && l < |s.heap[q].history| && s.heap[q].history[l].Then?
    requires s.heap[p].history[k].child == s.heap[q].history[l].child
    ensures p == q && k == l
  {}

  /** The callback that runs belongs to the subscription that ran last. */
  lemma RunningPlace(s: Engine)
    requires Sound(s) && s.control.Running?
    ensures var p := s.control.p;
            && p < |s.heap| && s.heap[p].ran != [] && |s.heap[p].ran| <= |s.heap[p].history|
            && s.heap[p].history[|s.heap[p].ran| - 1] == s.control.sub && s.control.sub.Then?
  {
    RanIsHistory(s, s.control.p);
    hide Numbered, OwnPromises, Owed;
  }

  lemma UndoneBefore(s: Engine, m: Move, p: PId, k: nat)
    requires Sound(s) && Enabled(s, m) && p < |s.heap| <= |Next(s, m).heap|
    requires Undone(Next(s, m), p, k)
    ensures Undone(s, p, k)
  {
    GoodNow(s);
    MoveHandles(s, m);
    ControlStep(s, m);
    hide Next, Good, Enabled, Comes, Owed, Sound;
  }

  /** As long as it is undone, no move settles its child. */
  lemma UndoneIsSpared(s: Engine, m: Move, p: PId, k: nat)
    requires Sound(s) && Enabled(s, m) && p < |s.heap| <= |Next(s, m).heap|
    requires k < |s.heap[p].history| && s.heap[p].history[k].Then? && Life(s, p, k) && Undone(Next(s, m), p, k)
    ensures Spares(s, Next(s, m), s.heap[p].history[k].child)
  {
    var c := s.heap[p].history[k].child;
    GoodNow(s);
    UndoneBefore(s, m, p, k);
    if Subject(s, m) == Some(c) {
      if m.UserReturns? {
        ReturnIsDone(s, m, p, k);
      } else {
        ComesNext(s, m);
        var (q, sub) := Comes(s, m).value;
        if sub.Then? {
          OnePlace(s, p, k, q, |s.heap[q].ran|);
          MoveHandles(s, m);
        } else {
          assert false;
        }
      }
    }
    hide Next, Good, Enabled, Undone, Inv, Numbered;
    MoveSpares(s, m, c);
  }

  lemma ReturnIsDone(s: Engine, m: Move, p: PId, k: nat)
    requires Sound(s) && Enabled(s, m) && m.UserReturns? && p < |s.heap| <= |Next(s, m).heap|
    requires k < |s.heap[p].history| && s.heap[p].history[k].Then?
    requires s.control.Running? && s.heap[p].history[k].child == s.control.sub.child
    ensures !Undone(Next(s, m), p, k) && p == s.control.p && k + 1 == |s.heap[p].ran|
  {
    RunningPlace(s);
    OnePlace(s, p, k, s.control.p, |s.heap[s.control.p].ran| - 1);
    GoodNow(s);
    ControlStep(s, m);
    MoveHandles(s, m);
    hide Next, Good, Sound;
  }

  lemma UndoneStays(s: Engine, m: Move, p: PId, k: nat)
    requires Sound(s) && Enabled(s, m) && p < |s.heap| <= |Next(s, m).heap|
    requires k < |s.heap[p].history| && s.heap[p].history[k].Then? && Life(s, p, k) && Undone(Next(s, m), p, k)
    ensures Untouched(Next(s, m), s.heap[p].history[k].child)
  {
    UndoneIsSpared(s, m, p, k);
    UndoneBefore(s, m, p, k);
    hide Next, Enabled, Sound, Undone;
  }

  /** Without a callback the child gets the fate of the promise. */
  lemma PassedOn(s: Engine, i: nat, p: PId, sub: Sub, from: Option<nat>)
    requires Good(s) && i < |s.queue| && p < |s.heap| && sub in s.heap[p].history && s.heap[p].state != Pending
    requires sub.Then? && sub.child < |s.heap| && s.heap[sub.child].state == Pending
    requires Owed(p, sub, s.heap[p].state, s.heap[p].result) == []
    ensures |Handle(s, i, p, sub, from).heap| == |s.heap| && SameFate(Handle(s, i, p, sub, from), sub.child, p)
  {
    hide Good;
  }

  lemma PassedOnNow(s: Engine, m: Move)
    requires Good(s) && Enabled(s, m) && Comes(s, m).Some?
    requires var (p, sub) := Comes(s, m).value;
             && p < |s.heap| && sub.Then? && sub.child < |s.heap| && s.heap[sub.child].state == Pending
             && Owed(p, sub, s.heap[p].state, s.heap[p].result) == []
    ensures var (p, sub) := Comes(s, m).value;
            |Next(s, m).heap| == |s.heap| && SameFate(Next(s, m), sub.child, p)
  {
    ComesGood(s, m);
    var (p, sub) := Comes(s, m).value;
    PassedOn(s, s.control.i, p, sub, if m.FlushTurn? then None else Some(s.control.j));
    hide Handle, Owed, SameFate;
  }

  lemma FateKept(s: Engine, s': Engine, c: PId, p: PId)
    requires c < |s.heap| <= |s'.heap| && p < |s.heap| && SameFate(s, c, p)
    requires Kept(s.heap[c], s'.heap[c]) && Kept(s.heap[p], s'.heap[p])
    ensures SameFate(s', c, p)
  {}

  lemma AllKept(s: Engine, m: Move, p: PId)
    requires Good(s) && Enabled(s, m) && p < |s.heap|
    ensures |s.heap| <= |Next(s, m).heap| && Kept(s.heap[p], Next(s, m).heap[p])
  {
    MoveKeeps(s, m);
    hide Next, Good, Enabled, Kept;
  }

  lemma FateStep(s: Engine, m: Move, p: PId, k: nat)
    requires Sound(s) && Enabled(s, m) && p < |s.heap| <= |Next(s, m).heap|
    requires k < |s.heap[p].history| && s.heap[p].history[k].Then? && Life(s, p, k)
    requires var q' := Next(s, m).heap[p];
             k < |q'.ran| && Owed(p, s.heap[p].history[k], q'.state, q'.result) == []
    ensures SameFate(Next(s, m), s.heap[p].history[k].child, p)
  {
    var sub, s' := s.heap[p].history[k], Next(s, m);
    GoodNow(s);
    RanIsHistory(s, p);
    AllKept(s, m, p);
    AllKept(s, m, sub.child);
    if k < |s.heap[p].ran| {
      hide Next, Good, Enabled, Inv, Numbered, Owed, Untouched;
      FateKept(s, s', sub.child, p);
    } else {
      MoveHandles(s, m);
      assert Comes(s, m).Some? && Comes(s, m).value.0 == p;
      ComesNext(s, m);
      assert k == |s.heap[p].ran|;
      hide Next, Good, Enabled, Inv, Numbered, Comes;
      PassedOnNow(s, m);
    }
  }

  lemma OldLife(s: Engine, m: Move, p: PId, k: nat)
    requires Sound(s) && Enabled(s, m) && p < |s.heap| <= |Next(s, m).heap|
    requires k < |s.heap[p].history| && s.heap[p].history[k].Then? && Life(s, p, k)
    ensures k < |Next(s, m).heap[p].history| && Next(s, m).heap[p].history[k] == s.heap[p].history[k]
    ensures Life(Next(s, m), p, k)
  {
    var sub, s' := s.heap[p].history[k], Next(s, m);
    GoodNow(s);
    AllKept(s, m, p);
    AllKept(s, m, sub.child);
    hide Next, Good, Enabled, Sound, Owed, Untouched, SameFate, Undone;
    if Undone(s', p, k) {
      UndoneStays(s, m, p, k);
    }
    if k < |s'.heap[p].ran| && Owed(p, sub, s'.heap[p].state, s'.heap[p].result) == [] {
      FateStep(s, m, p, k);
    }
  }

  lemma NewLife(s: Engine, m: Move)
    requires Sound(s) && Enabled(s, m) && m.UserThen? && Sound(Next(s, m))
    ensures m.p < |s.heap| <= |Next(s, m).heap| && |Next(s, m).heap[m.p].history| == |s.heap[m.p].history| + 1
    ensures Next(s, m).heap[m.p].history[|s.heap[m.p].history|].Then? && Life(Next(s, m), m.p, |s.heap[m.p].history|)
  {
    var s', k := Next(s, m), |s.heap[m.p].history|;
    GoodNow(s);
    MoveKeeps(s, m);
    ThenRegisters(s, m.p, m.onFulfilled, m.onRejected);
    RanIsHistory(s, m.p);
    assert s'.heap[|s.heap|].kind == Child;
    NobodyAdopts(s, m);
    hide Next, Good, Enabled, Sound, Kept, Owed;
  }

  lemma NobodyAdopts(s: Engine, m: Move)
    requires Sound(s) && Enabled(s, m) && m.UserThen?
    ensures var s' := Next(s, m);
            forall q, l :: 0 <= q < |s'.heap| && 0 <= l < |s'.heap[q].history| ==> s'.heap[q].history[l] != Adopt(|s.heap|)
  {
    var s' := Next(s, m);
    forall q, l | 0 <= q < |s'.heap| && 0 <= l < |s'.heap[q].history|
      ensures s'.heap[q].history[l] != Adopt(|s.heap|)
    {
      if q < |s.heap| && l < |s.heap[q].history| {
        assert GoodPromise(s, q);
        assert GoodSub(s, q, s.heap[q].history[l]);
      }
    }
  }

  lemma LivesStep(s: Engine, m: Move)
    requires Sound(s) && Enabled(s, m) && AllLives(s) && Sound(Next(s, m))
    ensures AllLives(Next(s, m))
  {
    var s' := Next(s, m);
    GoodNow(s);
    MoveKeeps(s, m);
    if m.UserThen? {
      NewLife(s, m);
    }
    hide Next, Good, Enabled, Sound, Life;
    forall p: nat, k: nat | p < |s'.heap| && k < |s'.heap[p].history| && s'.heap[p].history[k].Then?
      ensures Life(s', p, k)
    {
      if p < |s.heap| && k < |s.heap[p].history| {
        AllKept(s, m, p);
        OldLife(s, m, p, k);
      }
    }
  }

  lemma {:induction false} LivesAlways(es: seq<Engine>, ms: seq<Move>, i: nat)
    requires Execution(es, ms) && i < |es|
    ensures AllLives(es[i]) && Sound(es[i])
  {
    hide Next, Good, Enabled, AllLives, Sound;
    SoundAlways(es, ms, i);
    if i > 0 {
      MoveAt(es, ms, i - 1);
      LivesAlways(es, ms, i - 1);
      LivesStep(es[i - 1], ms[i - 1]);
    } else {
      NoLives();
    }
  }

  lemma NoLives()
    ensures AllLives(NEW)
  {}

  /** WITHOUT A CALLBACK. When control is back with the caller: the promise returned by a call of then on a settled p that
      was given no callback for p's fate is settled in the same way and with the same value. */
  lemma FateIsPassedOn(es: seq<Engine>, ms: seq<Move>, i: nat, p: PId, k: nat)
    requires Execution(es, ms) && i < |es| && es[i].control.Idle? && p < |es[i].heap| && es[i].heap[p].state != Pending
    requires k < |es[i].heap[p].history| && es[i].heap[p].history[k].Then?
    requires var sub := es[i].heap[p].history[k];
             if es[i].heap[p].state == Fulfilled then !sub.onFulfilled else !sub.onRejected
    ensures var c := es[i].heap[p].history[k].child;
            && c < |es[i].heap| && es[i].heap[c].state == es[i].heap[p].state
            && es[i].heap[c].result == es[i].heap[p].result
  {
    LivesAlways(es, ms, i);
    NothingLeftBehind(es, ms, i);
    SubsOfLength(es[i].heap[p].ran);
    assert Life(es[i], p, k);
    hide Sound, AllLives, Undone;
  }

  // ---------- what a callback brings ----------

  /** Call n of then on r returned c. */
  predicate Returned(s: Engine, r: nat, n: nat, c: PId) {
    && r < |s.heap| && n < |s.heap[r].history| && s.heap[r].history[n].Then? && s.heap[r].history[n].child == c
  }

  /** Promise c waits for q: subscription l of q, and nothing else, is to adopt into it. */
  ghost predicate Awaits(s: Engine, c: PId, q: PId, l: nat) {
    && c < |s.heap| && s.heap[c].kind == Child && q < |s.heap| && l < |s.heap[q].history| && s.heap[q].history[l] == Adopt(c)
    && (forall r, n :: 0 <= r < |s.heap| && 0 <= n < |s.heap[r].history| && s.heap[r].history[n] == Adopt(c) ==>
          r == q && n == l)
    && (forall r: nat, n: nat :: Returned(s, r, n, c) ==> !Undone(s, r, n))
    && (if l < |s.heap[q].ran| then SameFate(s, c, q) else s.heap[c].state == Pending)
  }

  lemma RunningReturned(s: Engine)
    requires Sound(s) && s.control.Running?
    ensures exists r: nat, n: nat :: Returned(s, r, n, s.control.sub.child) && Undone(s, r, n)
  {
    RunningPlace(s);
    var p := s.control.p;
    assert Returned(s, p, |s.heap[p].ran| - 1, s.control.sub.child);
    hide Sound;
  }

  lemma ComesReturned(s: Engine, m: Move)
    requires Inv(s) && Enabled(s, m) && Comes(s, m).Some?
    ensures var (p, sub) := Comes(s, m).value;
            && p < |s.heap| && |s.heap[p].ran| < |s.heap[p].history| && s.heap[p].history[|s.heap[p].ran|] == sub
            && (sub.Then? ==> exists r: nat, n: nat :: Returned(s, r, n, sub.child) && Undone(s, r, n))
  {
    ComesNext(s, m);
    var (p, sub) := Comes(s, m).value;
    if sub.Then? {
      assert Returned(s, p, |s.heap[p].ran|, sub.child);
    }
    hide Inv, Enabled, Comes;
  }

  /** Of a promise that waits, the only move that settles it is the one that handles that subscription. */
  lemma AwaitingSubject(s: Engine, m: Move, c: PId, q: PId, l: nat)
    requires Sound(s) && Enabled(s, m) && Awaits(s, c, q, l) && Subject(s, m) == Some(c)
    ensures Comes(s, m) == Some((q, Adopt(c))) && l == |s.heap[q].ran|
  {
    GoodNow(s);
    if m.UserReturns? {
      RunningReturned(s);
    } else {
      ComesReturned(s, m);
    }
    hide Numbered, Inv, Good, Enabled;
  }

  lemma AdoptedNow(s: Engine, m: Move, c: PId, q: PId)
    requires Good(s) && Enabled(s, m) && Comes(s, m) == Some((q, Adopt(c)))
    requires c < |s.heap| && s.heap[c].state == Pending && q < |s.heap|
    ensures |Next(s, m).heap| == |s.heap| && SameFate(Next(s, m), c, q)
    ensures forall r :: 0 <= r < |s.heap| ==> Next(s, m).heap[r].history == s.heap[r].history
    ensures !Next(s, m).control.Running?
  {
    ComesGood(s, m);
    var from := if m.FlushTurn? then None else Some(s.control.j);
    AdoptedOn(s, s.control.i, q, c, from);
    hide Handle, SameFate;
  }

  lemma AdoptedOn(s: Engine, i: nat, q: PId, c: PId, from: Option<nat>)
    requires Good(s) && i < |s.queue| && q < |s.heap| && Adopt(c) in s.heap[q].history && s.heap[q].state != Pending
    requires c < |s.heap| && s.heap[c].state == Pending
    ensures var s' := Handle(s, i, q, Adopt(c), from);
            && |s'.heap| == |s.heap| && SameFate(s', c, q) && !s'.control.Running?
            && forall r :: 0 <= r < |s.heap| ==> s'.heap[r].history == s.heap[r].history
  {
    assert GoodPromise(s, q);
    hide Good;
  }

  lemma AwaitsSpared(s: Engine, m: Move, c: PId, q: PId, l: nat)
    requires Sound(s) && Enabled(s, m) && Awaits(s, c, q, l) && Subject(s, m) != Some(c) && Sound(Next(s, m))
    ensures Awaits(Next(s, m), c, q, l)
  {
    var s' := Next(s, m);
    GoodNow(s);
    MoveSpares(s, m, c);
    MoveHandles(s, m);
    AllKept(s, m, q);
    AllKept(s, m, c);
    if Comes(s, m).Some? {
      ComesNext(s, m);
    }
    NoNewPlace(s, m, c);
    hide Next, Good, Enabled, Inv, Numbered, Undone, Comes;
    assert s'.heap[q].history[l] == Adopt(c);
    if l < |s.heap[q].ran| {
      FateKept(s, s', c, q);
    }
  }

  /** No call of then that is done for c becomes undone, and none is made that returns c. */
  lemma NoNewPlace(s: Engine, m: Move, c: PId)
    requires Sound(s) && Enabled(s, m) && c < |s.heap|
    requires forall r: nat, n: nat :: Returned(s, r, n, c) ==> !Undone(s, r, n)
    ensures forall r: nat, n: nat :: Returned(Next(s, m), r, n, c) ==> !Undone(Next(s, m), r, n)
  {
    var s' := Next(s, m);
    GoodNow(s);
    MoveKeeps(s, m);
    forall r: nat, n: nat | Returned(s', r, n, c)
      ensures !Undone(s', r, n)
    {
      assert r < |s.heap| && n < |s.heap[r].history|;
      AllKept(s, m, r);
      if Undone(s', r, n) {
        UndoneBefore(s, m, r, n);
      }
    }
  }

  lemma AwaitsStep(s: Engine, m: Move, c: PId, q: PId, l: nat)
    requires Sound(s) && Enabled(s, m) && Awaits(s, c, q, l) && Sound(Next(s, m))
    ensures Awaits(Next(s, m), c, q, l)
  {
    GoodNow(s);
    if Subject(s, m) != Some(c) {
      AwaitsSpared(s, m, c, q, l);
    } else {
      AwaitingSubject(s, m, c, q, l);
      AdoptedNow(s, m, c, q);
      MoveHandles(s, m);
      NoNewPlace(s, m, c);
      AllKept(s, m, c);
      hide Next, Good, Enabled, Sound, Undone, SameFate, Subject, Comes;
    }
  }

  lemma {:induction false} AwaitsOn(es: seq<Engine>, ms: seq<Move>, i: nat, j: nat, c: PId, q: PId, l: nat)
    requires Execution(es, ms) && i <= j < |es| && Awaits(es[i], c, q, l)
    ensures Awaits(es[j], c, q, l) && Sound(es[j])
    decreases j
  {
    hide Next, Good, Enabled, Awaits, Sound;
    SoundAlways(es, ms, j);
    if i < j {
      MoveAt(es, ms, j - 1);
      AwaitsOn(es, ms, i, j - 1, c, q, l);
      AwaitsStep(es[j - 1], ms[j - 1], c, q, l);
    }
  }

  /** Right after the callback came back: settled, or waiting for the promise it returned. */
  ghost predicate Answered(s: Engine, c: PId, done: Completion) {
    && c < |s.heap|
    && match done
       case Throw(e) => s.heap[c].state == Rejected && s.heap[c].result == e
       case Return(Own(q)) =>
         if q == c then s.heap[c].state == Rejected && s.heap[c].result == ReturnedOwn
         else q < |s.heap| && (SameFate(s, c, q) || exists l: nat :: Awaits(s, c, q, l))
       case Return(v) => s.heap[c].state == Fulfilled && s.heap[c].result == v
  }

  /** invokeCallback on a pending child. */
  lemma CompleteBrings(s: Engine, c: PId, done: Completion)
    requires c < |s.heap| && s.heap[c].state == Pending && (done.Return? ==> KnownValue(s, done.value))
    ensures var s' := Complete(s, c, done);
            match done
            case Throw(e) => s'.heap[c].state == Rejected && s'.heap[c].result == e
            case Return(Own(q)) =>
              if q == c then s'.heap[c].state == Rejected && s'.heap[c].result == ReturnedOwn
              else if s.heap[q].state != Pending then SameFate(s', c, q)
              else && |s'.heap| == |s.heap| && s'.heap[c].state == Pending && s'.heap[c].kind == s.heap[c].kind
                   && s'.heap[q].history == s.heap[q].history + [Adopt(c)] && s'.heap[q].ran == s.heap[q].ran
                   && (forall r :: 0 <= r < |s.heap| && r != q ==> s'.heap[r].history == s.heap[r].history)
            case Return(v) => s'.heap[c].state == Fulfilled && s'.heap[c].result == v
  {}

  lemma ReturnBrings(s: Engine, m: Move)
    requires Sound(s) && AllLives(s) && Enabled(s, m) && m.UserReturns? && Sound(Next(s, m))
    ensures Answered(Next(s, m), s.control.sub.child, m.completion)
  {
    var s', c, done := Next(s, m), s.control.sub.child, m.completion;
    var Running(i, p, sub, from) := s.control;
    RunningPlace(s);
    var k := |s.heap[p].ran| - 1;
    assert Life(s, p, k);
    assert GoodPromise(s, p) && GoodSub(s, p, sub);
    var s1 := Advance(s, i, p, from);
    CompleteBrings(s1, c, done);
    GoodNow(s);
    AllKept(s, m, c);
    hide Complete, AllLives, Good, GoodPromise, GoodSub, Enabled;
    if done.Return? && done.value.Own? && done.value.p != c && s.heap[done.value.p].state == Pending {
      RanIsHistory(s, done.value.p);
      WaitsNow(s, m, p, k, done.value.p);
    }
  }

  lemma WaitsNow(s: Engine, m: Move, p: PId, k: nat, q: PId)
    requires Sound(s) && Enabled(s, m) && m.UserReturns? && Sound(Next(s, m))
    requires p < |s.heap| && k < |s.heap[p].history| && s.heap[p].history[k].Then? && Life(s, p, k)
    requires s.control.p == p && k + 1 == |s.heap[p].ran| && s.heap[p].history[k].child == s.control.sub.child
    requires q < |s.heap| && s.heap[q].state == Pending && q != s.control.sub.child
    requires var s', c := Next(s, m), s.control.sub.child;
             && |s.heap| == |s'.heap| && s'.heap[c].state == Pending && s'.heap[q].history == s.heap[q].history + [Adopt(c)]
             && s'.heap[q].ran == [] && s'.heap[c].kind == s.heap[c].kind
             && (forall r :: 0 <= r < |s.heap| && r != q ==> s'.heap[r].history == s.heap[r].history)
    ensures Awaits(Next(s, m), s.control.sub.child, q, |s.heap[q].history|)
  {
    var s', c := Next(s, m), s.control.sub.child;
    hide Next, Enabled, Owed;
    forall r: nat, n: nat | Returned(s', r, n, c)
      ensures !Undone(s', r, n)
    {
      assert n < |s.heap[r].history| && s.heap[r].history[n].Then?;
      ReturnIsDone(s, m, r, n);
    }
    hide Sound;
  }

  /** WHAT THE CALLBACK SAYS, THE CHILD GETS. At every moment after a callback came back, the promise that then returned is:
      rejected with what it threw; fulfilled with the plain value it returned; rejected with a TypeError if it returned
      that very promise; and if it returned another promise q, then settled only as q is, and so settled, once control is
      back with the caller, if q is. */
  lemma CallbackResult(es: seq<Engine>, ms: seq<Move>, i: nat, j: nat)
    requires Execution(es, ms) && i < j < |es| && ms[i].UserReturns? && es[i].control.Running?
    ensures es[i].control.sub.Then?
    ensures var s, c := es[j], es[i].control.sub.child;
            && c < |s.heap|
            && match ms[i].completion
               case Throw(e) => s.heap[c].state == Rejected && s.heap[c].result == e
               case Return(Own(q)) =>
                 if q == c then s.heap[c].state == Rejected && s.heap[c].result == ReturnedOwn
                 else && q < |s.heap|
                      && (s.heap[c].state != Pending || (s.control.Idle? && s.heap[q].state != Pending) ==>
                            s.heap[q].state != Pending && s.heap[c].state == s.heap[q].state
                            && s.heap[c].result == s.heap[q].result)
               case Return(v) => s.heap[c].state == Fulfilled && s.heap[c].result == v
  {
    LivesAlways(es, ms, i);
    SoundAlways(es, ms, i + 1);
    MoveAt(es, ms, i);
    var c, s1 := es[i].control.sub.child, es[i + 1];
    ReturnBrings(es[i], ms[i]);
    SettledForever(es, ms, i + 1, j, c);
    hide Next, Good, Enabled, Sound, AllLives, Awaits;
    if ms[i].completion.Return? && ms[i].completion.value.Own? && ms[i].completion.value.p != c {
      var q := ms[i].completion.value.p;
      SettledForever(es, ms, i + 1, j, q);
      if l: nat :| Awaits(s1, c, q, l) {
        AwaitsOn(es, ms, i + 1, j, c, q, l);
        WaitedFor(es[j], c, q, l);
      }
    }
  }

  lemma WaitedFor(s: Engine, c: PId, q: PId, l: nat)
    requires Sound(s) && Awaits(s, c, q, l)
    ensures c < |s.heap| && q < |s.heap|
    ensures s.heap[c].state != Pending || (s.control.Idle? && s.heap[q].state != Pending) ==> SameFate(s, c, q)
  {
    assert Account(s, q);
    SubsOfLength(s.heap[q].ran);
  }

  // ---------- what a resolver brings ----------

  /** Whoever was to adopt a fate and has been told is settled. */
  ghost predicate AdoptersTold(s: Engine) {
    forall q, l :: 0 <= q < |s.heap| && 0 <= l < |s.heap[q].ran| && s.heap[q].ran[l].sub.Adopt? ==>
      var t := s.heap[q].ran[l].sub.target; t < |s.heap| && s.heap[t].state != Pending
  }

  lemma ToldNow(s: Engine, m: Move, q: PId, t: PId)
    requires Good(s) && Enabled(s, m) && Comes(s, m) == Some((q, Adopt(t)))
    ensures t < |Next(s, m).heap| && Next(s, m).heap[t].state != Pending
  {
    ComesGood(s, m);
    assert GoodPromise(s, q) && GoodSub(s, q, Adopt(t));
    AllKept(s, m, t);
    hide Next, Good, Enabled, SameFate;
    if s.heap[t].state == Pending {
      AdoptedNow(s, m, t, q);
      assert SameFate(Next(s, m), t, q);
      SettledByFate(Next(s, m), t, q);
    }
  }

  lemma SettledByFate(s: Engine, c: PId, p: PId)
    requires c < |s.heap| && p < |s.heap| && SameFate(s, c, p)
    ensures s.heap[c].state != Pending
  {}

  lemma AdoptersStep(s: Engine, m: Move)
    requires Good(s) && Enabled(s, m) && AdoptersTold(s)
    ensures AdoptersTold(Next(s, m))
  {
    var s' := Next(s, m);
    MoveHandles(s, m);
    hide Next, Good, Enabled, Comes;
    forall q, l | 0 <= q < |s'.heap| && 0 <= l < |s'.heap[q].ran| && s'.heap[q].ran[l].sub.Adopt?
      ensures var t := s'.heap[q].ran[l].sub.target; t < |s'.heap| && s'.heap[t].state != Pending
    {
      var t := s'.heap[q].ran[l].sub.target;
      if q < |s.heap| && l < |s.heap[q].ran| {
        assert s.heap[q].ran[l] == s'.heap[q].ran[l];
        AllKept(s, m, t);
      } else {
        ToldNow(s, m, q, t);
      }
    }
  }

  lemma {:induction false} AdoptersAlways(es: seq<Engine>, ms: seq<Move>, i: nat)
    requires Execution(es, ms) && i < |es|
    ensures AdoptersTold(es[i])
  {
    hide Next, Good, Enabled, AdoptersTold;
    if i > 0 {
      MoveAt(es, ms, i - 1);
      AdoptersAlways(es, ms, i - 1);
      AdoptersStep(es[i - 1], ms[i - 1]);
    } else {
      NobodyTold();
    }
  }

  lemma NobodyTold()
    ensures AdoptersTold(NEW)
  {}

  lemma ResolveBrings(s: Engine, p: PId, v: Value)
    requires p < |s.heap| && s.heap[p].state == Pending && KnownValue(s, v)
    ensures var s' := Resolve(s, p, v);
            match v
            case Own(q) =>
              if q == p then s'.heap[p].state == Rejected && s'.heap[p].result == SelfFulfillment
              else if s.heap[q].state != Pending then SameFate(s', p, q)
              else Adopt(p) in s'.heap[q].history
            case _ => s'.heap[p].state == Fulfilled && s'.heap[p].result == v
  {}

  lemma Told(s: Engine, q: PId, p: PId)
    requires Inv(s) && AdoptersTold(s) && s.control.Idle? && q < |s.heap| && s.heap[q].state != Pending
    requires Adopt(p) in s.heap[q].history
    ensures p < |s.heap| && s.heap[p].state != Pending
  {
    assert Account(s, q);
    SubsOfLength(s.heap[q].ran);
    assert SubsOf(s.heap[q].ran) == s.heap[q].history;
    var l :| 0 <= l < |s.heap[q].history| && s.heap[q].history[l] == Adopt(p);
    assert s.heap[q].ran[l].sub == Adopt(p);
  }

  /** WHAT A RESOLVER SAYS. At every moment after code resolved or rejected its pending promise, that promise is: rejected
      with the reason; fulfilled with the plain value; rejected with a TypeError if it was resolved with itself; as q is
      if it was resolved with a settled promise q; and settled once q is and control is back with the caller, if it was
      resolved with a pending one. */
  lemma ResolverResult(es: seq<Engine>, ms: seq<Move>, i: nat, j: nat, p: PId)
    requires Execution(es, ms) && i < j < |es| && p < |es[i].heap| && es[i].heap[p].state == Pending
    ensures |es[i].heap| <= |es[j].heap|
    ensures forall e :: ms[i] == UserReject(p, e) ==> es[j].heap[p].state == Rejected && es[j].heap[p].result == e
    ensures forall v :: ms[i] == UserResolve(p, v) ==>
              var s := es[j];
              match v
              case Own(q) =>
                if q == p then s.heap[p].state == Rejected && s.heap[p].result == SelfFulfillment
                else && q < |es[i].heap|
                     && (es[i].heap[q].state != Pending ==>
                           s.heap[p].state == es[i].heap[q].state && s.heap[p].result == es[i].heap[q].result)
                     && (s.control.Idle? && s.heap[q].state != Pending ==> s.heap[p].state != Pending)
              case _ => s.heap[p].state == Fulfilled && s.heap[p].result == v
  {
    SettledForever(es, ms, i, j, |es[i].heap| - 1);
    MoveAt(es, ms, i);
    var s := es[i];
    match ms[i] {
      case UserResolve(r, v) =>
        if r == p {
          ResolveBrings(s, p, v);
          AllKept(s, ms[i], p);
          SettledForever(es, ms, i + 1, j, p);
          if v.Own? {
            AllKept(s, ms[i], v.p);
            SettledForever(es, ms, i + 1, j, v.p);
            Always(es, ms, j);
            AdoptersAlways(es, ms, j);
            hide Resolve, Next, Good, Enabled, Inv, AdoptersTold;
            if v.p != p && es[j].control.Idle? && es[j].heap[v.p].state != Pending {
              if s.heap[v.p].state == Pending {
                Told(es[j], v.p, p);
              }
            }
          }
        }
      case UserReject(r, e) =>
        AllKept(s, ms[i], p);
        SettledForever(es, ms, i + 1, j, p);
      case _ =>
    }
  }
}
