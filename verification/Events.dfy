/** EventBus of event.js, and the matching of responses to requests on top of it. */
module Events {
  predicate Distinct<L(==)>(cbs: seq<L>) {
    forall i, j :: 0 <= i < j < |cbs| ==> cbs[i] != cbs[j]
  }

  /** splice(findIndex(cb), 1), nothing when cb is not there. */
  function Without<L(==)>(cbs: seq<L>, cb: L): (r: seq<L>)
    ensures |r| <= |cbs|
  {
    if cbs == [] then []
    else if cbs[0] == cb then cbs[1..]
    else [cbs[0]] + Without(cbs[1..], cb)
  }

  lemma {:induction false} WithoutAbsent<L>(cbs: seq<L>, cb: L)
    requires cb !in cbs
    ensures Without(cbs, cb) == cbs
  {
    if cbs != [] {
      WithoutAbsent(cbs[1..], cb);
    }
  }

  lemma {:induction false} WithoutAt<L>(cbs: seq<L>, i: nat)
    requires i < |cbs| && forall j :: 0 <= j < i ==> cbs[j] != cbs[i]
    ensures Without(cbs, cbs[i]) == cbs[..i] + cbs[i + 1..]
  {
    if i > 0 {
      assert cbs[1..][i - 1] == cbs[i];
      WithoutAt(cbs[1..], i - 1);
      assert cbs[..i] == [cbs[0]] + cbs[1..][..i - 1];
      assert cbs[1..][i..] == cbs[i + 1..];
    }
  }

  lemma DistinctAppend<L>(a: seq<L>, b: seq<L>)
    requires Distinct(a) && Distinct(b) && forall x :: x in a ==> x !in b
    ensures Distinct(a + b)
  {
    forall i, j | 0 <= i < j < |a + b|
      ensures (a + b)[i] != (a + b)[j]
    {
      if i < |a| <= j {
        assert a[i] in a && b[j - |a|] in b;
      }
    }
  }

  lemma {:induction false} WithoutKeeps<L>(cbs: seq<L>, id: L)
    requires Distinct(cbs)
    ensures Distinct(Without(cbs, id)) && id !in Without(cbs, id)
    ensures forall x :: x in Without(cbs, id) <==> x in cbs && x != id
  {
    if cbs != [] {
      var tail := cbs[1..];
      forall i, j | 0 <= i < j < |tail|
        ensures tail[i] != tail[j]
      {
        assert tail[i] == cbs[i + 1] && tail[j] == cbs[j + 1];
      }
      if cbs[0] != id {
        WithoutKeeps(tail, id);
        DistinctAppend([cbs[0]], Without(tail, id));
      }
      assert forall x :: x in cbs <==> x == cbs[0] || x in tail;
    }
  }

  // ---------- emit over a list its callbacks splice ----------

  /** `for (let cb of cbs) cb()` where a callback in `once` takes itself off the list while it runs. The iterator keeps
      an index into the live array. */
  function Visited<L(==)>(cbs: seq<L>, once: L -> bool, i: nat): seq<L>
    decreases |cbs| - i
  {
    if i >= |cbs| then []
    else if once(cbs[i]) then [cbs[i]] + Visited(Without(cbs, cbs[i]), once, i + 1)
    else [cbs[i]] + Visited(cbs, once, i + 1)
  }

  /** emit is at index i of the live list, with `visited` behind it and `all` to be visited in the end. */
  predicate StillToVisit<L(==)>(visited: seq<L>, cbs: seq<L>, once: L -> bool, i: nat, all: seq<L>) {
    visited + Visited(cbs, once, i) == all
  }

  lemma VisitedNext<L>(visited: seq<L>, cbs: seq<L>, once: L -> bool, i: nat, all: seq<L>)
    requires i < |cbs| && StillToVisit(visited, cbs, once, i, all)
    ensures StillToVisit(visited + [cbs[i]], if once(cbs[i]) then Without(cbs, cbs[i]) else cbs, once, i + 1, all)
  {
    var rest := Visited(if once(cbs[i]) then Without(cbs, cbs[i]) else cbs, once, i + 1);
    assert visited + ([cbs[i]] + rest) == visited + [cbs[i]] + rest;
  }

  /** What that amounts to on the list as it was: each self-removing listener hides the one behind it. */
  function EveryOtherAfterOnce<L>(cbs: seq<L>, once: L -> bool): seq<L> {
    if cbs == [] then []
    else if once(cbs[0]) && |cbs| > 1 then [cbs[0]] + EveryOtherAfterOnce(cbs[2..], once)
    else [cbs[0]] + EveryOtherAfterOnce(cbs[1..], once)
  }

  /** Taking the first listener equal to the one at i off the list moves everything behind i up by one. */
  lemma {:induction false} WithoutShifts<L>(cbs: seq<L>, i: nat)
    requires i < |cbs|
    ensures var spliced := Without(cbs, cbs[i]);
            |spliced| == |cbs| - 1 && spliced[i..] == cbs[i + 1..]
  {
    if cbs[0] != cbs[i] {
      WithoutShifts(cbs[1..], i - 1);
      var spliced := Without(cbs, cbs[i]);
      assert spliced[i..] == spliced[1..][i - 1..];
    }
  }

  lemma {:induction false} VisitedSkips<L>(cbs: seq<L>, once: L -> bool, i: nat)
    requires i <= |cbs|
    ensures Visited(cbs, once, i) == EveryOtherAfterOnce(cbs[i..], once)
    decreases |cbs| - i
  {
    if i < |cbs| {
      assert cbs[i..][0] == cbs[i] && cbs[i..][1..] == cbs[i + 1..];
      if once(cbs[i]) {
        var spliced := Without(cbs, cbs[i]);
        WithoutShifts(cbs, i);
        if i + 1 <= |spliced| {
          VisitedSkips(spliced, once, i + 1);
          assert spliced[i + 1..] == spliced[i..][1..] == cbs[i..][2..];
        }
      } else {
        VisitedSkips(cbs, once, i + 1);
      }
    }
  }

  /** emit reaches every listener exactly when none but the last takes itself off. */
  lemma EmitReachesAllIff<L>(cbs: seq<L>, once: L -> bool)
    ensures Visited(cbs, once, 0) == cbs <==> forall i :: 0 <= i < |cbs| - 1 ==> !once(cbs[i])
  {
    VisitedSkips(cbs, once, 0);
    assert cbs[0..] == cbs;
    SkipsNothingIff(cbs, once);
  }

  /** Two listeners, of which the first removes itself: the second is not called. */
  lemma EmitSkipsExample()
    ensures Visited([1, 2], id => id == 1, 0) == [1]
  {
    var once: int -> bool := id => id == 1;
    VisitedSkips([1, 2], once, 0);
    assert [1, 2][0..] == [1, 2];
  }

  lemma {:induction false} SkipsNothingIff<L>(cbs: seq<L>, once: L -> bool)
    ensures |EveryOtherAfterOnce(cbs, once)| <= |cbs|
    ensures EveryOtherAfterOnce(cbs, once) == cbs <==> forall i :: 0 <= i < |cbs| - 1 ==> !once(cbs[i])
  {
    if cbs != [] {
      if once(cbs[0]) && |cbs| > 1 {
        SkipsNothingIff(cbs[2..], once);
        assert |EveryOtherAfterOnce(cbs, once)| < |cbs|;
      } else {
        var tail := EveryOtherAfterOnce(cbs[1..], once);
        SkipsNothingIff(cbs[1..], once);
        assert ([cbs[0]] + tail)[1..] == tail;
        assert [cbs[0]] + tail == cbs <==> tail == cbs[1..];
        assert forall i :: 0 <= i < |cbs[1..]| - 1 ==> cbs[1..][i] == cbs[i + 1];
        if forall i :: 0 <= i < |cbs[1..]| - 1 ==> !once(cbs[1..][i]) {
          forall i | 0 <= i < |cbs| - 1
            ensures !once(cbs[i])
          {
            assert i > 0 ==> cbs[1..][i - 1] == cbs[i];
          }
        }
      }
    }
  }

  // ---------- the class ----------

  /** A JavaScript array of callbacks: an object of its own, so that emit can hold on to it. */
  class CallbackArray<L(==)> {
    var cbs: seq<L>

    constructor (cb: L)
      ensures cbs == [cb]
    {
      cbs := [cb];
    }
  }

  class EventBus<L(==)> {
    var map_: map<string, CallbackArray<L>>

    ghost predicate Valid()
      reads this
    {
      forall s, t :: s in map_ && t in map_ && s != t ==> map_[s] != map_[t]
    }

    ghost function Listeners(event: string): seq<L>
      reads this, map_.Values
    {
      if event in map_ then map_[event].cbs else []
    }

    constructor ()
      ensures Valid() && map_ == map[]
    {
      map_ := map[];
    }

    method On(event: string, cb: L)
      requires Valid()
      modifies this, map_.Values
      ensures Valid() && event in map_
      ensures old(event in map_) ==> map_ == old(map_)
      ensures Listeners(event) == old(Listeners(event)) + [cb]
      ensures forall e :: e != event ==> Listeners(e) == old(Listeners(e))
      ensures fresh(map_.Values - old(map_.Values))
    {
      if event in map_ {
        map_[event].cbs := map_[event].cbs + [cb];
      } else {
        var cbs := new CallbackArray(cb);
        map_ := map_[event := cbs];
      }
    }

    method Off(event: string, cb: L)
      requires Valid()
      modifies map_.Values
      ensures Valid()
      ensures Listeners(event) == Without(old(Listeners(event)), cb)
      ensures forall e :: e != event ==> Listeners(e) == old(Listeners(e))
    {
      if event !in map_ {
        return;
      }
      var cbs := map_[event];
      var index := 0;
      while index < |cbs.cbs| && cbs.cbs[index] != cb
        invariant index <= |cbs.cbs| && forall j :: 0 <= j < index ==> cbs.cbs[j] != cb
      {
        index := index + 1;
      }
      if index < |cbs.cbs| {
        WithoutAt(cbs.cbs, index);
        cbs.cbs := cbs.cbs[..index] + cbs.cbs[index + 1..];
      } else {
        WithoutAbsent(cbs.cbs, cb);
      }
    }

    /** emit, where the listeners in `once` call off on themselves; `visited` is who was called. */
    method Emit(event: string, once: L -> bool) returns (visited: seq<L>)
      requires Valid()
      modifies map_.Values
      ensures Valid() && visited == Visited(old(Listeners(event)), once, 0)
      ensures forall e :: e != event ==> Listeners(e) == old(Listeners(e))
    {
      visited := [];
      if event !in map_ {
        return;
      }
      var cbs := map_[event];
      var i := 0;
      ghost var all := Visited(cbs.cbs, once, 0);
      assert StillToVisit([], cbs.cbs, once, 0, all);
      hide Without;
      while i < |cbs.cbs|
        invariant Valid() && i >= 0 && StillToVisit(visited, cbs.cbs, once, i, all)
        invariant forall e :: e != event ==> Listeners(e) == old(Listeners(e))
        decreases |cbs.cbs| - i
      {
        var cb := cbs.cbs[i];
        VisitedNext(visited, cbs.cbs, once, i, all);
        visited := visited + [cb];
        i := i + 1;
        if once(cb) {
          Off(event, cb);
        }
      }
    }

    /** off(type) without a callback forgets the whole list. */
    method OffType(event: string)
      requires Valid()
      modifies this
      ensures Valid()
      ensures Listeners(event) == []
      ensures forall e :: e != event ==> Listeners(e) == old(Listeners(e))
    {
      map_ := map_ - {event};
    }

    method Clear()
      modifies this
      ensures Valid() && forall e :: Listeners(e) == []
    {
      map_ := map[];
    }
  }

  // ---------- request / response ----------

  const RESPONSE := "response"

  /** The outstanding requests, as the listener list of the 'response' event. The listener of a request is a closure of
      its own, so it is named here by the id of the request. */
  datatype Requests<P> = Requests(listeners: seq<nat>, next: nat, resolved: seq<(nat, P)>)

  ghost predicate WellNumbered<P>(r: Requests<P>) {
    Distinct(r.listeners) && forall id :: id in r.listeners ==> id < r.next
  }

  function Ids(from: nat, n: nat): seq<nat> {
    if n == 0 then [] else Ids(from, n - 1) + [from + n - 1]
  }

  function Issue<P>(r: Requests<P>): Requests<P> {
    r.(listeners := r.listeners + [r.next], next := r.next + 1)
  }

  function Expire<P>(r: Requests<P>, id: nat): Requests<P> {
    r.(listeners := Without(r.listeners, id))
  }

  /** The promise: a response settles the request with its id, if that is outstanding, and nothing else. The code that
      waits for the result may issue `followUps` new requests before emit goes on. */
  function Respond<P>(r: Requests<P>, id: nat, payload: P, followUps: nat): Requests<P> {
    if id in r.listeners then
      Requests(Without(r.listeners, id) + Ids(r.next, followUps), r.next + followUps, r.resolved + [(id, payload)])
    else r
  }

  class RequestTable<P> {
    const bus: EventBus<nat>
    var traceId: nat
    var resolved: seq<(nat, P)>

    ghost predicate Valid()
      reads this, bus, bus.map_.Values
    {
      bus.Valid() && WellNumbered(View())
    }

    ghost function View(): Requests<P>
      reads this, bus, bus.map_.Values
    {
      Requests(bus.Listeners(RESPONSE), traceId, resolved)
    }

    constructor ()
      ensures Valid() && fresh(bus) && bus.map_ == map[] && View() == Requests([], 10000, [])
    {
      bus := new EventBus();
      traceId := 10000;
      resolved := [];
      new;
      assert bus.Listeners(RESPONSE) == [];
    }

    /** request: a fresh id and a listener of its own. */
    method Request() returns (id: nat)
      requires Valid()
      modifies this`traceId, bus, bus.map_.Values
      ensures Valid() && View() == Issue(old(View())) && id == old(traceId)
      ensures RESPONSE in bus.map_
      ensures old(RESPONSE in bus.map_) ==> bus.map_ == old(bus.map_)
      ensures fresh(bus.map_.Values - old(bus.map_.Values))
    {
      id := traceId;
      traceId := traceId + 1;
      DistinctAppend(bus.Listeners(RESPONSE), [id]);
      bus.On(RESPONSE, id);
    }

    /** The timer of a request fires. */
    method Timeout(id: nat)
      requires Valid()
      modifies bus.map_.Values
      ensures Valid() && View() == Expire(old(View()), id)
    {
      WithoutKeeps(bus.Listeners(RESPONSE), id);
      bus.Off(RESPONSE, id);
    }

    /** emit('response', ...): walks the live array with an index while the matching listener splices itself out of it
        and new requests may be pushed onto it. The listener that is skipped cannot be the one the response is for. */
    method EmitResponse(id: nat, payload: P, followUps: nat)
      requires Valid()
      modifies this`traceId, this`resolved, bus, bus.map_.Values
      ensures Valid() && View() == Respond(old(View()), id, payload, followUps)
    {
      if RESPONSE !in bus.map_ {
        return;
      }
      var cbs := bus.map_[RESPONSE];
      ghost var before := View();
      var i := 0;
      ghost var matched := false;
      while i < |cbs.cbs|
        invariant RESPONSE in bus.map_ && bus.map_[RESPONSE] == cbs && bus.map_ == old(bus.map_)
        invariant Valid() && 0 <= i
        invariant !matched ==> View() == before && i <= |cbs.cbs| && forall j :: 0 <= j < i ==> cbs.cbs[j] != id
        invariant matched ==> id in before.listeners && View() == Respond(before, id, payload, followUps)
                              && id !in cbs.cbs
        decreases !matched, |cbs.cbs| - i
      {
        var cb := cbs.cbs[i];
        i := i + 1;
        if cb == id {
          assert cb in cbs.cbs;
          WithoutKeeps(cbs.cbs, id);
          bus.Off(RESPONSE, cb);
          resolved := resolved + [(id, payload)];
          var n := 0;
          ghost var left := bus.Listeners(RESPONSE);
          while n < followUps
            invariant RESPONSE in bus.map_ && bus.map_ == old(bus.map_)
            invariant n <= followUps && Valid() && id !in bus.Listeners(RESPONSE)
            invariant View() == Requests(left + Ids(before.next, n), before.next + n, before.resolved + [(id, payload)])
            invariant id < before.next
          {
            var _ := Request();
            n := n + 1;
          }
          matched := true;
        }
      }
    }
  }

  // ---------- whole runs ----------

  datatype Op<P> = OpRequest | OpTimeout(id: nat) | OpResponse(id: nat, payload: P, followUps: nat)

  function Apply<P>(r: Requests<P>, op: Op<P>): Requests<P> {
    match op
    case OpRequest => Issue(r)
    case OpTimeout(id) => Expire(r, id)
    case OpResponse(id, payload, followUps) => Respond(r, id, payload, followUps)
  }

  /** The state after the first n operations. */
  function After<P>(ops: seq<Op<P>>, n: nat): Requests<P>
    requires n <= |ops|
  {
    if n == 0 then Requests([], 10000, []) else Apply(After(ops, n - 1), ops[n - 1])
  }

  /** Request id was issued by operation t (its own call, or code woken by a response). */
  predicate IssuedBy<P>(ops: seq<Op<P>>, t: nat, id: nat)
    requires t < |ops|
  {
    After(ops, t).next <= id < After(ops, t + 1).next
  }

  predicate Ends<P>(op: Op<P>, id: nat) {
    match op
    case OpRequest => false
    case OpTimeout(i) => i == id
    case OpResponse(i, _, _) => i == id
  }

  /** What one operation resolves. */
  function Resolves<P>(r: Requests<P>, op: Op<P>): seq<(nat, P)> {
    if op.OpResponse? && op.id in r.listeners then [(op.id, op.payload)] else []
  }

  lemma {:induction false} IdsIn(from: nat, n: nat)
    ensures Distinct(Ids(from, n)) && forall x :: x in Ids(from, n) <==> from <= x < from + n
  {
    if n > 0 {
      IdsIn(from, n - 1);
      DistinctAppend(Ids(from, n - 1), [from + n - 1]);
    }
  }

  /** One operation on the list: who is outstanding afterwards, and what it resolves. */
  lemma ApplyStep<P>(r: Requests<P>, op: Op<P>)
    requires WellNumbered(r)
    ensures var s := Apply(r, op);
            && WellNumbered(s) && r.next <= s.next
            && (forall id :: id in s.listeners <==>
                  (id in r.listeners && !Ends(op, id)) || r.next <= id < s.next)
            && s.resolved == r.resolved + Resolves(r, op)
  {
    match op {
      case OpRequest =>
        DistinctAppend(r.listeners, [r.next]);
      case OpTimeout(id) =>
        WithoutKeeps(r.listeners, id);
      case OpResponse(id, payload, followUps) =>
        if id in r.listeners {
          WithoutKeeps(r.listeners, id);
          IdsIn(r.next, followUps);
          DistinctAppend(Without(r.listeners, id), Ids(r.next, followUps));
        }
    }
  }

  lemma {:induction false} AfterInvariant<P>(ops: seq<Op<P>>, n: nat)
    requires n <= |ops|
    ensures WellNumbered(After(ops, n))
    ensures forall t :: 0 <= t <= n ==> After(ops, t).next <= After(ops, n).next
  {
    if n > 0 {
      AfterInvariant(ops, n - 1);
      ApplyStep(After(ops, n - 1), ops[n - 1]);
    }
  }

  /** A request is outstanding exactly when it was issued and neither its response nor its timeout came since. */
  lemma {:induction false} OutstandingIff<P>(ops: seq<Op<P>>, n: nat, id: nat)
    requires n <= |ops|
    ensures id in After(ops, n).listeners <==>
            exists t :: 0 <= t < n && IssuedBy(ops, t, id) && forall u :: t < u < n ==> !Ends(ops[u], id)
  {
    hide Apply, Ends;
    if n > 0 {
      OutstandingIff(ops, n - 1, id);
      AfterInvariant(ops, n - 1);
      ApplyStep(After(ops, n - 1), ops[n - 1]);
      if id in After(ops, n).listeners {
        if IssuedBy(ops, n - 1, id) {
        } else {
          var t :| 0 <= t < n - 1 && IssuedBy(ops, t, id) && forall u :: t < u < n - 1 ==> !Ends(ops[u], id);
          assert IssuedBy(ops, t, id) && forall u :: t < u < n ==> !Ends(ops[u], id);
        }
      }
      if t :| 0 <= t < n && IssuedBy(ops, t, id) && forall u :: t < u < n ==> !Ends(ops[u], id) {
        if t < n - 1 {
          assert IssuedBy(ops, t, id) && forall u :: t < u < n - 1 ==> !Ends(ops[u], id);
        }
      }
    }
  }

  function TimesResolved<P>(resolved: seq<(nat, P)>, id: nat): nat {
    if resolved == [] then 0
    else TimesResolved(resolved[..|resolved| - 1], id) + (if resolved[|resolved| - 1].0 == id then 1 else 0)
  }

  lemma TimesResolvedSnoc<P>(resolved: seq<(nat, P)>, x: (nat, P), id: nat)
    ensures TimesResolved(resolved + [x], id) == TimesResolved(resolved, id) + (if x.0 == id then 1 else 0)
  {
    assert (resolved + [x])[..|resolved|] == resolved;
  }

  /** Resolved at most once, and not at all while outstanding or not yet issued. */
  predicate Once<P>(r: Requests<P>, id: nat) {
    TimesResolved(r.resolved, id) <= (if id in r.listeners || id >= r.next then 0 else 1)
  }

  lemma OnceStep<P>(r: Requests<P>, op: Op<P>, id: nat)
    requires WellNumbered(r) && Once(r, id)
    ensures Once(Apply(r, op), id)
  {
    hide Apply;
    ApplyStep(r, op);
    var new' := Resolves(r, op);
    if new' == [] {
      assert r.resolved + new' == r.resolved;
    } else {
      TimesResolvedSnoc(r.resolved, (op.id, op.payload), id);
    }
  }

  /** THE MATCHING THEOREM. In any run with any number of requests outstanding, operation u resolves something exactly
      when it is a response to an outstanding request, and then it resolves that request with its payload; no request
      is resolved twice, and none that is still outstanding has been. */
  lemma {:induction false} ResolvedOnce<P>(ops: seq<Op<P>>, n: nat, id: nat)
    requires n <= |ops|
    ensures Once(After(ops, n), id)
    ensures n > 0 ==> After(ops, n).resolved == After(ops, n - 1).resolved + Resolves(After(ops, n - 1), ops[n - 1])
  {
    hide Apply, Once, Resolves;
    if n > 0 {
      ResolvedOnce(ops, n - 1, id);
      AfterInvariant(ops, n - 1);
      ApplyStep(After(ops, n - 1), ops[n - 1]);
      OnceStep(After(ops, n - 1), ops[n - 1], id);
    } else {
      NothingResolved<P>(id);
    }
  }

  lemma NothingResolved<P>(id: nat)
    ensures Once<P>(Requests([], 10000, []), id)
  {}
}
