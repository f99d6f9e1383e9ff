/** Promise.all, inside the engine: its enumerators against the promises they wait for. */
module PromiseAll {
  import opened Common
  import opened Promises
  import opened PromiseRuns

  function Unset(result: seq<Option<Value>>): nat {
    if result == [] then 0
    else Unset(result[..|result| - 1]) + (if result[|result| - 1].None? then 1 else 0)
  }

  lemma {:induction false} UnsetSet(result: seq<Option<Value>>, i: nat, v: Value)
    requires i < |result| && result[i].None?
    ensures Unset(result) == Unset(result[i := Some(v)]) + 1
  {
    var n := |result| - 1;
    var result' := result[i := Some(v)];
    if i < n {
      UnsetSet(result[..n], i, v);
      assert result'[..n] == result[..n][i := Some(v)];
    } else {
      assert result'[..n] == result[..n];
    }
  }

  lemma {:induction false} UnsetZero(result: seq<Option<Value>>)
    ensures Unset(result) == 0 <==> forall i :: 0 <= i < |result| ==> result[i].Some?
    ensures (forall i :: 0 <= i < |result| ==> result[i].None?) ==> Unset(result) == |result|
  {
    if result != [] {
      var n := |result| - 1;
      UnsetZero(result[..n]);
      assert forall i :: 0 <= i < n ==> result[..n][i] == result[i];
      assert result[n].Some? && (forall i :: 0 <= i < n ==> result[i].Some?) ==>
               forall i :: 0 <= i < |result| ==> result[i].Some?;
    }
  }

  // ---------- what an enumerator knows ----------

  /** Entry i, once looked at: a value is in the result; a promise is in the result only when it is fulfilled, with its
      value; and as long as the whole is pending, what is missing is exactly what has not reported yet. */
  ghost predicate Slot(s: Engine, e: nat, i: nat)
    requires e < |s.enums| && GoodEnumerator(s, e) && i < |s.enums[e].entries|
  {
    var en := s.enums[e];
    var open := s.heap[en.promise].state == Pending;
    match en.entries[i]
    case Own(q) =>
      && q < |s.heap|
      && (en.result[i].Some? ==> s.heap[q].state == Fulfilled && en.result[i] == Some(s.heap[q].result))
      && (match en.sources[i]
          case None => open ==> en.result[i].Some?
          case Some(t) =>
            && t < |s.heap| && s.heap[t].kind == Entry(q, e, i) && s.heap[t].history == [AllEntry(e, i)]
            && (s.heap[t].state != Pending ==>
                  s.heap[q].state == s.heap[t].state && s.heap[q].result == s.heap[t].result)
            && (open ==> (en.result[i].None? <==> s.heap[t].ran == [])))
    case v => en.result[i] == Some(v) && en.sources[i] == None
  }

  ghost predicate Verdict(s: Engine, e: nat)
    requires e < |s.enums| && GoodEnumerator(s, e)
  {
    var en := s.enums[e];
    var p := s.heap[en.promise];
    && p.kind == AllOf(e)
    && (p.state == Pending ==> en.remaining == Unset(en.result))
    && (p.state == Fulfilled ==>
          p.result == AllResult(en.result) && forall i :: 0 <= i < |en.result| ==> en.result[i].Some?)
    && (p.state == Rejected ==>
          exists i :: 0 <= i < |en.entries| && RejectedBy(s, en.entries[i], p.result))
  }

  ghost predicate RejectedBy(s: Engine, entry: Value, reason: Value) {
    entry.Own? && entry.p < |s.heap| && s.heap[entry.p].state == Rejected && s.heap[entry.p].result == reason
  }

  /** Enumerator e after its first k entries were looked at. */
  ghost predicate Tracks(s: Engine, e: nat, k: nat) {
    && e < |s.enums| && GoodEnumerator(s, e) && k <= |s.enums[e].entries|
    && (forall i :: 0 <= i < k ==> Slot(s, e, i))
    && (forall i :: k <= i < |s.enums[e].entries| ==> s.enums[e].result[i].None? && s.enums[e].sources[i].None?)
    && Verdict(s, e)
  }

  ghost predicate Complete(s: Engine, e: nat) {
    && e < |s.enums| && Tracks(s, e, |s.enums[e].entries|)
    && (s.heap[s.enums[e].promise].state == Pending ==> Unset(s.enums[e].result) > 0)
  }

  /** The promise made for an entry is the one its enumerator listens to. */
  ghost predicate Registered(s: Engine, t: PId)
    requires t < |s.heap|
  {
    s.heap[t].kind.Entry? ==>
      var e, i := s.heap[t].kind.enumerator, s.heap[t].kind.index;
      e < |s.enums| && i < |s.enums[e].sources| && s.enums[e].sources[i] == Some(t)
  }

  ghost predicate AllRegistered(s: Engine) {
    forall t :: 0 <= t < |s.heap| ==> Registered(s, t)
  }

  ghost predicate AInv(s: Engine) {
    (forall e :: 0 <= e < |s.enums| ==> Complete(s, e)) && AllRegistered(s)
  }

  // ---------- what leaves an enumerator alone ----------

  ghost predicate Fate(q: Promise, q': Promise) {
    q'.kind == q.kind && (q.state != Pending ==> q'.state == q.state && q'.result == q.result)
  }

  ghost predicate Untouched(q: Promise, q': Promise) {
    q'.kind == q.kind && q'.state == q.state && q'.result == q.result && q'.history == q.history && q'.ran == q.ran
  }

  /** Enumerator e, its promise and its listeners are as they were; settled promises stay settled. */
  ghost predicate LeavesAlone(s: Engine, s': Engine, e: nat) {
    && e < |s.enums| && e < |s'.enums| && s'.enums[e] == s.enums[e] && |s.heap| <= |s'.heap|
    && (forall p :: 0 <= p < |s.heap| ==> Fate(s.heap[p], s'.heap[p]))
    && (forall t :: 0 <= t < |s.heap| && s.heap[t].kind.Entry? && s.heap[t].kind.enumerator == e ==>
          Untouched(s.heap[t], s'.heap[t]))
    && (s.enums[e].promise < |s.heap| ==> s'.heap[s.enums[e].promise].state == s.heap[s.enums[e].promise].state)
  }

  ghost predicate Fates(s: Engine, s': Engine) {
    |s.heap| <= |s'.heap| && forall p :: 0 <= p < |s.heap| ==> Fate(s.heap[p], s'.heap[p])
  }

  lemma KnownStays(s: Engine, s': Engine, entries: seq<Value>)
    requires Fates(s, s') && forall v :: v in entries ==> KnownValue(s, v)
    ensures forall v :: v in entries ==> KnownValue(s', v)
  {
    forall v | v in entries
      ensures KnownValue(s', v)
    {
      assert KnownValue(s, v);
      assert v.Own? ==> Fate(s.heap[v.p], s'.heap[v.p]);
    }
  }

  /** A reason that came from one of the entries still does. */
  lemma RejectionStands(s: Engine, s': Engine, entries: seq<Value>, reason: Value)
    requires Fates(s, s') && exists i :: 0 <= i < |entries| && RejectedBy(s, entries[i], reason)
    ensures exists i :: 0 <= i < |entries| && RejectedBy(s', entries[i], reason)
  {
    var i :| 0 <= i < |entries| && RejectedBy(s, entries[i], reason);
    assert Fate(s.heap[entries[i].p], s'.heap[entries[i].p]);
    assert RejectedBy(s', entries[i], reason);
  }

  /** Registration and the enumerators other than e, after a change that leaves those alone. */
  lemma OthersStay(s: Engine, s': Engine, e: nat)
    requires |s'.enums| >= |s.enums| && forall d :: 0 <= d < |s'.enums| && d != e ==> d < |s.enums| && Complete(s, d)
    requires forall d :: 0 <= d < |s.enums| && d != e ==> LeavesAlone(s, s', d)
    ensures forall d :: 0 <= d < |s'.enums| && d != e ==> Complete(s', d)
  {
    hide Complete, LeavesAlone;
    forall d | 0 <= d < |s'.enums| && d != e
      ensures Complete(s', d)
    {
      assert Complete(s, d);
      assert LeavesAlone(s, s', d);
      AloneComplete(s, s', d);
    }
  }

  lemma AloneTracks(s: Engine, s': Engine, e: nat, k: nat)
    requires LeavesAlone(s, s', e) && Tracks(s, e, k)
    ensures Tracks(s', e, k)
    ensures s'.heap[s.enums[e].promise].state == s.heap[s.enums[e].promise].state
  {
    var en := s.enums[e];
    assert Fate(s.heap[en.promise], s'.heap[en.promise]);
    forall v | v in en.entries
      ensures KnownValue(s', v)
    {
      assert KnownValue(s, v);
      assert v.Own? ==> Fate(s.heap[v.p], s'.heap[v.p]);
    }
    forall i | 0 <= i < k
      ensures Slot(s', e, i)
    {
      assert Slot(s, e, i);
      var v := en.entries[i];
      if v.Own? {
        assert Fate(s.heap[v.p], s'.heap[v.p]);
        if en.sources[i].Some? {
          assert Untouched(s.heap[en.sources[i].value], s'.heap[en.sources[i].value]);
        }
      }
    }
    AloneVerdict(s, s', e);
  }

  lemma AloneVerdict(s: Engine, s': Engine, e: nat)
    requires LeavesAlone(s, s', e) && GoodEnumerator(s, e) && Verdict(s, e)
    ensures GoodEnumerator(s', e) ==> Verdict(s', e)
  {
    var en := s.enums[e];
    assert Fate(s.heap[en.promise], s'.heap[en.promise]);
    if s.heap[en.promise].state == Rejected {
      var i :| 0 <= i < |en.entries| && RejectedBy(s, en.entries[i], s.heap[en.promise].result);
      assert Fate(s.heap[en.entries[i].p], s'.heap[en.entries[i].p]);
      assert RejectedBy(s', en.entries[i], s'.heap[en.promise].result);
    }
  }

  lemma AloneComplete(s: Engine, s': Engine, e: nat)
    requires LeavesAlone(s, s', e) && Complete(s, e)
    ensures Complete(s', e)
  {
    AloneTracks(s, s', e, |s.enums[e].entries|);
  }

  // ---------- moves that concern no enumerator ----------

  /** Neither a Promise.all promise nor one of its listeners is settled, run or subscribed to, and none is made. */
  ghost predicate NoAll(s: Engine, s': Engine) {
    && s'.enums == s.enums && |s.heap| <= |s'.heap|
    && (forall p :: 0 <= p < |s.heap| ==> Fate(s.heap[p], s'.heap[p]))
    && (forall p :: 0 <= p < |s.heap| && s.heap[p].kind.AllOf? ==> s'.heap[p].state == s.heap[p].state)
    && (forall t :: 0 <= t < |s.heap| && s.heap[t].kind.Entry? ==> Untouched(s.heap[t], s'.heap[t]))
    && (forall t :: |s.heap| <= t < |s'.heap| ==> !s'.heap[t].kind.Entry?)
  }

  lemma NoAllInv(s: Engine, s': Engine)
    requires NoAll(s, s') && AInv(s)
    ensures AInv(s')
  {
    forall e | 0 <= e < |s'.enums|
      ensures Complete(s', e)
    {
      assert Complete(s, e);
      assert LeavesAlone(s, s', e);
      AloneComplete(s, s', e);
    }
    forall t | 0 <= t < |s'.heap|
      ensures Registered(s', t)
    {
      if t < |s.heap| {
        assert Registered(s, t) && Fate(s.heap[t], s'.heap[t]);
      }
    }
  }

  /** One promise that is neither settled, run nor subscribed to as a Promise.all or a listener. */
  ghost predicate Plainly(q: Promise, q': Promise) {
    Fate(q, q') && (q.kind.AllOf? ==> q'.state == q.state) && (q.kind.Entry? ==> Untouched(q, q'))
  }

  lemma NoAllUpdate(s: Engine, s': Engine, p: PId)
    requires p < |s.heap| == |s'.heap| && s'.heap == s.heap[p := s'.heap[p]] && s'.enums == s.enums
    requires Plainly(s.heap[p], s'.heap[p])
    ensures NoAll(s, s')
  {}

  lemma NoAllSettle(s: Engine, p: PId, v: Value)
    requires p < |s.heap| && !s.heap[p].kind.Entry? && !s.heap[p].kind.AllOf?
    ensures NoAll(s, Fulfill(s, p, v)) && NoAll(s, Reject(s, p, v))
  {
    NoAllUpdate(s, Fulfill(s, p, v), p);
    NoAllUpdate(s, Reject(s, p, v), p);
  }

  lemma NoAllSubscribe(s: Engine, p: PId, sub: Sub)
    requires p < |s.heap| && !s.heap[p].kind.Entry?
    ensures NoAll(s, Subscribe(s, p, sub))
  {
    NoAllUpdate(s, Subscribe(s, p, sub), p);
  }

  lemma NoAllResolve(s: Engine, p: PId, v: Value)
    requires p < |s.heap| && !s.heap[p].kind.Entry? && !s.heap[p].kind.AllOf? && KnownValue(s, v)
    ensures NoAll(s, Resolve(s, p, v))
  {
    hide NoAll;
    if v == Own(p) {
      NoAllSettle(s, p, SelfFulfillment);
    } else if v.Own? {
      NoAllSettle(s, p, s.heap[v.p].result);
      NoAllSubscribe(s, v.p, Adopt(p));
    } else {
      NoAllSettle(s, p, v);
    }
  }

  lemma NoAllThen(s: Engine, p: PId, f: bool, r: bool)
    requires p < |s.heap| && !s.heap[p].kind.Entry?
    ensures NoAll(s, ThenCall(s, p, f, r))
  {}

  lemma NoAllSelf(s: Engine)
    ensures NoAll(s, s)
  {}

  lemma NoAllComplete(s: Engine, child: PId, c: Completion)
    requires child < |s.heap| && s.heap[child].kind == Child && (c.Return? ==> KnownValue(s, c.value))
    ensures NoAll(s, Promises.Complete(s, child, c))
  {
    hide NoAll;
    NoAllSelf(s);
    NoAllSettle(s, child, ReturnedOwn);
    match c {
      case Return(v) => NoAllResolve(s, child, v);
      case Throw(x) => NoAllSettle(s, child, x);
    }
  }

  // ---------- a listener is settled by its entry ----------

  /** Listeners with what they have been told: nothing yet, or the fate of their entry. */
  lemma AdoptEntry(s: Engine, s': Engine, t: PId, q: PId, state: State, v: Value)
    requires AInv(s) && q < |s.heap| && t < |s.heap| == |s'.heap| && s.heap[t].kind.Entry?
    requires s.heap[t].kind.entry == q && s.heap[t].state == Pending
    requires s.heap[q].state == state != Pending && s.heap[q].result == v
    requires s'.heap == s.heap[t := s.heap[t].(state := state, result := v)] && s'.enums == s.enums
    ensures AInv(s')
  {
    forall e | 0 <= e < |s'.enums|
      ensures Complete(s', e)
    {
      assert Complete(s, e);
      var en := s.enums[e];
      forall i | 0 <= i < |en.entries|
        ensures Slot(s', e, i)
      {
        assert Slot(s, e, i);
        assert en.entries[i].Own? ==> KnownValue(s, en.entries[i]) by {
          assert en.entries[i] in en.entries;
        }
      }
      assert en.promise != t;
      AdoptEntryVerdict(s, s', t, e);
    }
    forall r | 0 <= r < |s'.heap|
      ensures Registered(s', r)
    {
      assert Registered(s, r);
    }
  }

  lemma AdoptEntryVerdict(s: Engine, s': Engine, t: PId, e: nat)
    requires e < |s.enums| && GoodEnumerator(s, e) && Verdict(s, e) && t < |s.heap| && s.heap[t].state == Pending
    requires |s'.heap| == |s.heap| && s'.heap == s.heap[t := s'.heap[t]] && s'.enums == s.enums
    requires s'.heap[t].kind == s.heap[t].kind && s.enums[e].promise != t
    ensures GoodEnumerator(s', e) && Verdict(s', e)
  {
    var en := s.enums[e];
    assert Fates(s, s');
    KnownStays(s, s', en.entries);
    if s.heap[en.promise].state == Rejected {
      var i :| 0 <= i < |en.entries| && RejectedBy(s, en.entries[i], s.heap[en.promise].result);
      assert RejectedBy(s', en.entries[i], s'.heap[en.promise].result);
    }
  }

  // ---------- an entry reports ----------

  /** Entry i is a settled promise q the enumerator is being told about. */
  ghost predicate Reporting(s: Engine, e: nat, i: nat, q: PId)
    requires e < |s.enums| && GoodEnumerator(s, e) && i < |s.enums[e].entries|
  {
    var en := s.enums[e];
    && en.entries[i] == Own(q) && q < |s.heap| && s.heap[q].state != Pending
    && (s.heap[en.promise].state == Pending ==> en.result[i].None?)
    && (en.result[i].Some? ==> s.heap[q].state == Fulfilled && en.result[i] == Some(s.heap[q].result))
    && (en.sources[i].Some? ==>
          var t := en.sources[i].value;
          && t < |s.heap| && s.heap[t].kind == Entry(q, e, i) && s.heap[t].history == [AllEntry(e, i)]
          && (s.heap[t].state != Pending ==>
                s.heap[q].state == s.heap[t].state && s.heap[q].result == s.heap[t].result)
          && s.heap[t].ran != [])
  }

  /** Everything is tracked but entry i, which is reporting. */
  ghost predicate TracksBut(s: Engine, e: nat, k: nat, i: nat, q: PId) {
    && e < |s.enums| && GoodEnumerator(s, e) && i < k <= |s.enums[e].entries|
    && (forall j :: 0 <= j < k && j != i ==> Slot(s, e, j))
    && (forall j :: k <= j < |s.enums[e].entries| ==> s.enums[e].result[j].None? && s.enums[e].sources[j].None?)
    && Verdict(s, e) && Reporting(s, e, i, q)
  }

  /** What SettledAt does to enumerators and promises. */
  lemma SettledAtEffect(s: Engine, e: nat, i: nat, state: State, v: Value)
    requires e < |s.enums| && i < |s.enums[e].result| && s.enums[e].promise < |s.heap| && state != Pending
    ensures var s', en := SettledAt(s, e, i, state, v), s.enums[e];
            var p := en.promise;
            && |s'.heap| == |s.heap| && |s'.enums| == |s.enums|
            && (forall r :: 0 <= r < |s.heap| && r != p ==> s'.heap[r] == s.heap[r])
            && (forall d :: 0 <= d < |s.enums| && d != e ==> s'.enums[d] == s.enums[d])
            && (if s.heap[p].state != Pending then s'.heap[p] == s.heap[p] && s'.enums[e] == en
                else if state == Rejected then
                  && s'.heap[p] == s.heap[p].(state := Rejected, result := v)
                  && s'.enums[e] == en.(remaining := en.remaining - 1)
                else
                  var en' := en.(remaining := en.remaining - 1, result := en.result[i := Some(v)]);
                  && s'.enums[e] == en'
                  && s'.heap[p] == if en'.remaining == 0
                                   then s.heap[p].(state := Fulfilled, result := AllResult(en'.result)) else s.heap[p])
  {}

  lemma SettledAtTracks(s: Engine, e: nat, k: nat, i: nat, q: PId)
    requires TracksBut(s, e, k, i, q)
    ensures var s' := SettledAt(s, e, i, s.heap[q].state, s.heap[q].result);
            && Tracks(s', e, k)
            && (s.heap[s.enums[e].promise].state == Pending && s'.heap[s.enums[e].promise].state == Pending ==>
                  Unset(s'.enums[e].result) > 0)
  {
    SettledAtSlots(s, e, k, i, q);
    SettledAtVerdict(s, e, k, i, q);
    SettledAtEffect(s, e, i, s.heap[q].state, s.heap[q].result);
    hide SettledAt, Slot, Verdict, Reporting, KnownValue;
  }

  lemma SettledAtSlots(s: Engine, e: nat, k: nat, i: nat, q: PId)
    requires TracksBut(s, e, k, i, q)
    ensures var s' := SettledAt(s, e, i, s.heap[q].state, s.heap[q].result);
            && e < |s'.enums| && GoodEnumerator(s', e) && |s'.enums[e].entries| == |s.enums[e].entries|
            && forall j :: 0 <= j < k ==> Slot(s', e, j)
  {
    var en := s.enums[e];
    var s' := SettledAt(s, e, i, s.heap[q].state, s.heap[q].result);
    SettledAtEffect(s, e, i, s.heap[q].state, s.heap[q].result);
    hide SettledAt, Verdict;
    forall x | x in en.entries
      ensures KnownValue(s', x)
    {
      assert KnownValue(s, x);
    }
    forall j | 0 <= j < k
      ensures Slot(s', e, j)
    {
      if j != i {
        assert Slot(s, e, j);
      }
      assert en.entries[j] in en.entries;
    }
  }

  lemma SettledAtVerdict(s: Engine, e: nat, k: nat, i: nat, q: PId)
    requires TracksBut(s, e, k, i, q)
    ensures var s' := SettledAt(s, e, i, s.heap[q].state, s.heap[q].result);
            && e < |s'.enums| && (GoodEnumerator(s', e) ==> Verdict(s', e))
            && s.enums[e].promise < |s.heap| == |s'.heap|
            && (s.heap[s.enums[e].promise].state == Pending && s'.heap[s.enums[e].promise].state == Pending ==>
                  Unset(s'.enums[e].result) > 0)
  {
    var en := s.enums[e];
    var p, state, v := en.promise, s.heap[q].state, s.heap[q].result;
    var s' := SettledAt(s, e, i, state, v);
    SettledAtEffect(s, e, i, state, v);
    hide SettledAt, Slot, KnownValue;
    if s.heap[p].state == Pending && state == Fulfilled {
      UnsetSet(en.result, i, v);
      UnsetZero(s'.enums[e].result);
    }
    if s'.heap[p].state == Rejected {
      if s.heap[p].state == Pending {
        assert RejectedBy(s', en.entries[i], s'.heap[p].result);
      } else {
        var j :| 0 <= j < |en.entries| && RejectedBy(s, en.entries[j], s.heap[p].result);
        assert RejectedBy(s', en.entries[j], s'.heap[p].result);
      }
    }
  }

  lemma SettledAtOthers(s: Engine, e: nat, i: nat, state: State, v: Value, d: nat)
    requires e < |s.enums| && i < |s.enums[e].result| && GoodEnumerator(s, e) && Verdict(s, e) && state != Pending
    requires d < |s.enums| && d != e && GoodEnumerator(s, d) && Verdict(s, d)
    ensures LeavesAlone(s, SettledAt(s, e, i, state, v), d)
  {
    SettledAtEffect(s, e, i, state, v);
    hide SettledAt;
  }

  lemma SettledAtRegistered(s: Engine, e: nat, i: nat, state: State, v: Value)
    requires e < |s.enums| && i < |s.enums[e].result| && s.enums[e].promise < |s.heap| && AllRegistered(s)
    requires state != Pending
    ensures AllRegistered(SettledAt(s, e, i, state, v))
  {
    SettledAtEffect(s, e, i, state, v);
    var s' := SettledAt(s, e, i, state, v);
    hide SettledAt;
    forall t | 0 <= t < |s'.heap|
      ensures Registered(s', t)
    {
      assert Registered(s, t);
    }
  }

  lemma EntryHistory(s: Engine, t: PId)
    requires AInv(s) && t < |s.heap| && s.heap[t].kind.Entry?
    ensures var Entry(q, e, i) := s.heap[t].kind;
            && e < |s.enums| && GoodEnumerator(s, e) && i < |s.enums[e].entries|
            && s.enums[e].sources[i] == Some(t) && s.enums[e].entries[i] == Own(q) && Slot(s, e, i)
            && s.heap[t].history == [AllEntry(e, i)]
  {
    assert Registered(s, t);
    var Entry(q, e, i) := s.heap[t].kind;
    assert Complete(s, e);
    assert Slot(s, e, i);
  }

  /** A listener that is being run has not been run before. */
  lemma FirstRun(s: Engine, i: nat, p: PId, sub: Sub, from: Option<nat>)
    requires Inv(s) && AtSub(s, i, p, sub, from) && |s.heap[p].history| == 1
    ensures s.heap[p].ran == []
  {
    AtSubGood(s, i, p, sub, from);
    assert Account(s, p);
    LoggedOutstanding(s, i, p, sub, from, Advance(Log(s, p, sub), i, p, from), p);
    SubsOfLength(s.heap[p].ran);
  }

  /** Handling a listener: log its run, then tell the enumerator. */
  lemma HandleAllEntry(s: Engine, i: nat, p: PId, sub: Sub, from: Option<nat>)
    requires Inv(s) && AInv(s) && AtSub(s, i, p, sub, from) && sub.AllEntry?
    ensures s.heap[p].state != Pending && sub in s.heap[p].history && AInv(Handle(s, i, p, sub, from))
  {
    AtSubGood(s, i, p, sub, from);
    assert GoodPromise(s, p) && GoodSub(s, p, sub);
    EntryHistory(s, p);
    FirstRun(s, i, p, sub, from);
    var Entry(q, e, k) := s.heap[p].kind;
    var n := |s.enums[e].entries|;
    var s2 := Advance(Log(s, p, sub), i, p, from);
    assert Complete(s, e);
    assert Handle(s, i, p, sub, from) == SettledAt(s2, e, k, s.heap[p].state, s.heap[p].result);
    hide Handle, SettledAt, Slot, Verdict, Account, GoodPromise, GoodSub;
    LoggedBut(s, s2, p, q, e, k, n);
    SettledAtTracks(s2, e, n, k, q);
    var s' := SettledAt(s2, e, k, s.heap[p].state, s.heap[p].result);
    SettledAtEffect(s2, e, k, s.heap[p].state, s.heap[p].result);
    forall t | 0 <= t < |s2.heap|
      ensures Registered(s2, t)
    {
      assert Registered(s, t);
    }
    SettledAtRegistered(s2, e, k, s.heap[p].state, s.heap[p].result);
    HandleAllEntryOthers(s, s2, p, q, e, k);
    assert Complete(s', e);
  }

  lemma HandleAllEntryOthers(s: Engine, s2: Engine, p: PId, q: PId, e: nat, k: nat)
    requires AInv(s) && e < |s.enums| && p < |s.heap| == |s2.heap| && s.heap[p].kind == Entry(q, e, k)
    requires s2.enums == s.enums && s2.heap == s.heap[p := s2.heap[p]] && k < |s.enums[e].result|
    requires s2.heap[p] == s.heap[p].(ran := s2.heap[p].ran) && s.heap[p].state != Pending
    requires GoodEnumerator(s2, e) && Verdict(s2, e)
    ensures var s' := SettledAt(s2, e, k, s.heap[p].state, s.heap[p].result);
            forall d :: 0 <= d < |s'.enums| && d != e ==> Complete(s', d)
  {
    var s' := SettledAt(s2, e, k, s.heap[p].state, s.heap[p].result);
    SettledAtEffect(s2, e, k, s.heap[p].state, s.heap[p].result);
    hide SettledAt;
    assert forall d :: 0 <= d < |s.enums| && d != e ==> Complete(s, d) && LeavesAlone(s, s2, d);
    OthersStay(s, s2, e);
    forall d | 0 <= d < |s2.enums| && d != e
      ensures LeavesAlone(s2, s', d)
    {
      assert Complete(s2, d);
      SettledAtOthers(s2, e, k, s.heap[p].state, s.heap[p].result, d);
    }
    OthersStay(s2, s', e);
  }

  /** After the run is logged, entry k is the one reporting. */
  lemma LoggedBut(s: Engine, s2: Engine, p: PId, q: PId, e: nat, k: nat, n: nat)
    requires Complete(s, e) && n == |s.enums[e].entries| && k < n && p < |s.heap| == |s2.heap|
    requires s.heap[p].kind == Entry(q, e, k) && s.enums[e].sources[k] == Some(p) && s.enums[e].entries[k] == Own(q)
    requires s.heap[p].state != Pending && s.heap[p].ran == []
    requires s2.enums == s.enums && s2.heap == s.heap[p := s2.heap[p]]
    requires s2.heap[p] == s.heap[p].(ran := s2.heap[p].ran) && s2.heap[p].ran != []
    ensures TracksBut(s2, e, n, k, q)
    ensures s2.heap[q].state == s.heap[p].state && s2.heap[q].result == s.heap[p].result
  {
    var en := s.enums[e];
    assert Slot(s, e, k);
    assert Fates(s, s2);
    KnownStays(s, s2, en.entries);
    forall j | 0 <= j < n && j != k
      ensures Slot(s2, e, j)
    {
      assert Slot(s, e, j);
      assert en.entries[j] in en.entries;
    }
    assert s.heap[en.promise].kind == AllOf(e);
    if s.heap[en.promise].state == Rejected {
      RejectionStands(s, s2, en.entries, s.heap[en.promise].result);
    }
    assert KnownValue(s, en.entries[k]) by { assert en.entries[k] in en.entries; }
  }

  // ---------- building an enumerator ----------

  /** Enumerator e is being built, k entries done; all the others are complete. */
  ghost predicate Building(s: Engine, e: nat, k: nat) {
    && e < |s.enums| && Tracks(s, e, k) && AllRegistered(s)
    && forall d :: 0 <= d < |s.enums| && d != e ==> Complete(s, d)
  }

  lemma BuildSettled(s: Engine, e: nat, i: nat, q: PId)
    requires Building(s, e, i) && i < |s.enums[e].entries| && s.enums[e].entries[i] == Own(q)
    requires q < |s.heap| && s.heap[q].state != Pending
    ensures Building(EachEntry(s, e, i), e, i + 1)
  {
    var s' := EachEntry(s, e, i);
    assert TracksBut(s, e, i + 1, i, q);
    SettledAtTracks(s, e, i + 1, i, q);
    SettledAtRegistered(s, e, i, s.heap[q].state, s.heap[q].result);
    SettledAtEffect(s, e, i, s.heap[q].state, s.heap[q].result);
    hide SettledAt;
    forall d | 0 <= d < |s'.enums| && d != e
      ensures Complete(s', d)
    {
      assert Complete(s, d);
      SettledAtOthers(s, e, i, s.heap[q].state, s.heap[q].result, d);
      AloneComplete(s, s', d);
    }
  }

  /** What a pending entry adds: its listener t, subscribed to it, and the enumerator subscribed to the listener. */
  lemma EachEntryPending(s: Engine, e: nat, i: nat, q: PId)
    requires e < |s.enums| && i < |s.enums[e].result| == |s.enums[e].entries| == |s.enums[e].sources|
    requires s.enums[e].promise < |s.heap| && s.enums[e].entries[i] == Own(q)
    requires KnownValue(s, Own(q)) && s.heap[q].state == Pending
    ensures var s', t, en := EachEntry(s, e, i), |s.heap|, s.enums[e];
            && |s'.heap| == t + 1 && s'.enums == s.enums[e := en.(sources := en.sources[i := Some(t)])]
            && s'.heap[t].kind == Entry(q, e, i) && s'.heap[t].state == Pending && s'.heap[t].ran == []
            && s'.heap[t].history == [AllEntry(e, i)]
            && (forall r :: 0 <= r < t && r != q ==> s'.heap[r] == s.heap[r])
            && s'.heap[q] == s.heap[q].(subscribers := s.heap[q].subscribers + [Adopt(t)],
                                        history := s.heap[q].history + [Adopt(t)])
  {}

  /** The heap after a pending entry was given its listener. */
  ghost predicate Listening(s: Engine, s': Engine, e: nat, i: nat, q: PId) {
    var t := |s.heap|;
    && e < |s.enums| && i < |s.enums[e].sources| && q < t && s.heap[q].state == Pending && !s.heap[q].kind.Entry?
    && |s'.heap| == t + 1 && s'.enums == s.enums[e := s.enums[e].(sources := s.enums[e].sources[i := Some(t)])]
    && s'.heap[t].kind == Entry(q, e, i) && s'.heap[t].state == Pending && s'.heap[t].ran == []
    && s'.heap[t].history == [AllEntry(e, i)]
    && (forall r :: 0 <= r < t && r != q ==> s'.heap[r] == s.heap[r])
    && s'.heap[q].kind == s.heap[q].kind && s'.heap[q].state == Pending && s'.heap[q].result == s.heap[q].result
    && s'.heap[q].ran == s.heap[q].ran
  }

  lemma ListeningTracks(s: Engine, s': Engine, e: nat, i: nat, q: PId)
    requires Listening(s, s', e, i, q) && Tracks(s, e, i) && i < |s.enums[e].entries| && s.enums[e].entries[i] == Own(q)
    ensures Tracks(s', e, i + 1)
  {
    var en := s.enums[e];
    assert Fates(s, s');
    KnownStays(s, s', en.entries);
    forall j | 0 <= j < i + 1
      ensures Slot(s', e, j)
    {
      if j < i {
        assert Slot(s, e, j);
      }
      assert en.entries[j] in en.entries;
    }
    if s.heap[en.promise].state == Rejected {
      RejectionStands(s, s', en.entries, s.heap[en.promise].result);
    }
  }

  lemma ListeningRest(s: Engine, s': Engine, e: nat, i: nat, q: PId)
    requires Listening(s, s', e, i, q) && Building(s, e, i)
    ensures AllRegistered(s') && forall d :: 0 <= d < |s'.enums| && d != e ==> Complete(s', d)
  {
    forall r | 0 <= r < |s'.heap|
      ensures Registered(s', r)
    {
      if r < |s.heap| {
        assert Registered(s, r);
      }
    }
    forall d | 0 <= d < |s.enums| && d != e
      ensures LeavesAlone(s, s', d)
    {
      assert Complete(s, d);
    }
    OthersStay(s, s', e);
  }

  lemma BuildPending(s: Engine, e: nat, i: nat, q: PId)
    requires Building(s, e, i) && i < |s.enums[e].entries| && s.enums[e].entries[i] == Own(q)
    requires KnownValue(s, Own(q)) && s.heap[q].state == Pending
    ensures Building(EachEntry(s, e, i), e, i + 1)
  {
    EachEntryPending(s, e, i, q);
    var s' := EachEntry(s, e, i);
    hide EachEntry;
    assert Listening(s, s', e, i, q);
    hide Listening;
    ListeningTracks(s, s', e, i, q);
    ListeningRest(s, s', e, i, q);
  }

  /** Only enumerator e and its own promise differ. */
  ghost predicate OnlyAt(s: Engine, s': Engine, e: nat) {
    && e < |s.enums| == |s'.enums| && s.enums[e].promise < |s.heap| == |s'.heap|
    && (forall d :: 0 <= d < |s.enums| && d != e ==> s'.enums[d] == s.enums[d])
    && s'.enums[e].promise == s.enums[e].promise && s'.enums[e].sources == s.enums[e].sources
    && (forall r :: 0 <= r < |s.heap| && r != s.enums[e].promise ==> s'.heap[r] == s.heap[r])
    && Fate(s.heap[s.enums[e].promise], s'.heap[s.enums[e].promise])
  }

  lemma OnlyAtRest(s: Engine, s': Engine, e: nat, k: nat)
    requires OnlyAt(s, s', e) && Building(s, e, k)
    ensures AllRegistered(s') && forall d :: 0 <= d < |s'.enums| && d != e ==> Complete(s', d)
  {
    forall r | 0 <= r < |s'.heap|
      ensures Registered(s', r)
    {
      assert Registered(s, r);
    }
    forall d | 0 <= d < |s.enums| && d != e
      ensures LeavesAlone(s, s', d)
    {
      assert Complete(s, d);
    }
    OthersStay(s, s', e);
  }

  lemma BuildValueTracks(s: Engine, e: nat, i: nat)
    requires Tracks(s, e, i) && i < |s.enums[e].entries| && !s.enums[e].entries[i].Own?
    ensures Tracks(EachEntry(s, e, i), e, i + 1)
  {
    var s', en := EachEntry(s, e, i), s.enums[e];
    assert Fates(s, s');
    KnownStays(s, s', en.entries);
    forall j | 0 <= j < i + 1
      ensures Slot(s', e, j)
    {
      if j < i {
        assert Slot(s, e, j);
      }
    }
    UnsetSet(en.result, i, en.entries[i]);
    if s.heap[en.promise].state == Rejected {
      RejectionStands(s, s', en.entries, s.heap[en.promise].result);
    }
  }

  lemma BuildValue(s: Engine, e: nat, i: nat)
    requires Building(s, e, i) && i < |s.enums[e].entries| && !s.enums[e].entries[i].Own?
    ensures Building(EachEntry(s, e, i), e, i + 1)
  {
    BuildValueTracks(s, e, i);
    assert OnlyAt(s, EachEntry(s, e, i), e);
    hide EachEntry, OnlyAt, Tracks;
    OnlyAtRest(s, EachEntry(s, e, i), e, i);
  }

  lemma BuildFrom(s: Engine, e: nat, i: nat)
    requires e < |s.enums| && Building(s, e, i) && |s.enums[e].result| == |s.enums[e].entries| == |s.enums[e].sources|
    requires s.enums[e].promise < |s.heap| && forall v :: v in s.enums[e].entries ==> KnownValue(s, v)
    ensures var s' := EachEntryFrom(s, e, i);
            e < |s'.enums| && Building(s', e, |s'.enums[e].entries|) && s'.enums[e].promise == s.enums[e].promise
    decreases |s.enums[e].entries| - i
  {
    hide Building, EachEntry, KnownValue;
    assert i <= |s.enums[e].entries| by { BuildingBound(s, e, i); }
    if i < |s.enums[e].entries| {
      assert s.enums[e].entries[i] in s.enums[e].entries;
      BuildOne(s, e, i);
      EachEntryShape(s, e, i);
      BuildFrom(EachEntry(s, e, i), e, i + 1);
    }
  }

  lemma BuildingBound(s: Engine, e: nat, i: nat)
    requires Building(s, e, i)
    ensures i <= |s.enums[e].entries|
  {}

  lemma BuildOne(s: Engine, e: nat, i: nat)
    requires e < |s.enums| && Building(s, e, i) && i < |s.enums[e].entries|
    requires KnownValue(s, s.enums[e].entries[i])
    requires |s.enums[e].result| == |s.enums[e].entries| == |s.enums[e].sources| && s.enums[e].promise < |s.heap|
    ensures Building(EachEntry(s, e, i), e, i + 1)
  {
    hide Building, EachEntry;
    match s.enums[e].entries[i] {
      case Own(q) =>
        if s.heap[q].state != Pending {
          BuildSettled(s, e, i, q);
        } else {
          BuildPending(s, e, i, q);
        }
      case _ =>
        BuildValue(s, e, i);
    }
  }

  lemma BuildStart(s: Engine, entries: seq<Value>)
    requires AInv(s) && forall v :: v in entries ==> KnownValue(s, v)
    ensures var e, p, n := |s.enums|, |s.heap|, |entries|;
            var s1 := MakePromise(s, AllOf(e)).(enums := s.enums + [Enumerator(p, entries, n, Nones(n), Nones(n))]);
            Building(s1, e, 0) && forall v :: v in entries ==> KnownValue(s1, v)
  {
    var e, p, n := |s.enums|, |s.heap|, |entries|;
    var s1 := MakePromise(s, AllOf(e)).(enums := s.enums + [Enumerator(p, entries, n, Nones(n), Nones(n))]);
    UnsetZero(Nones<Value>(n));
    forall v | v in entries
      ensures KnownValue(s1, v)
    {
      assert KnownValue(s, v);
    }
    forall t | 0 <= t < |s1.heap|
      ensures Registered(s1, t)
    {
      if t < p {
        assert Registered(s, t);
      }
    }
    forall d | 0 <= d < |s1.enums| && d != e
      ensures Complete(s1, d)
    {
      assert Complete(s, d);
      assert LeavesAlone(s, s1, d);
      AloneComplete(s, s1, d);
    }
  }

  function Ended(s: Engine, e: nat): Engine
    requires e < |s.enums| && s.enums[e].promise < |s.heap|
  {
    if s.enums[e].remaining == 0 then Fulfill(s, s.enums[e].promise, AllResult(s.enums[e].result)) else s
  }

  lemma EndedComplete(s: Engine, e: nat)
    requires e < |s.enums| && Tracks(s, e, |s.enums[e].entries|)
    ensures Complete(Ended(s, e), e)
  {
    var en := s.enums[e];
    var s' := Ended(s, e);
    UnsetZero(en.result);
    assert Fates(s, s');
    KnownStays(s, s', en.entries);
    forall j | 0 <= j < |en.entries|
      ensures Slot(s', e, j)
    {
      assert Slot(s, e, j);
      assert en.entries[j] in en.entries;
    }
    if s.heap[en.promise].state == Rejected {
      RejectionStands(s, s', en.entries, s.heap[en.promise].result);
    }
  }

  /** The check after the loop: fulfil at once when nothing is left. */
  lemma BuildEnd(s: Engine, e: nat)
    requires e < |s.enums| && Building(s, e, |s.enums[e].entries|) && s.enums[e].promise < |s.heap|
    ensures AInv(Ended(s, e))
  {
    EndedComplete(s, e);
    assert OnlyAt(s, Ended(s, e), e);
    hide Ended, OnlyAt, Complete;
    OnlyAtRest(s, Ended(s, e), e, |s.enums[e].entries|);
    assert |Ended(s, e).enums| == |s.enums| by { OnlyAtSize(s, Ended(s, e), e); }
  }

  lemma OnlyAtSize(s: Engine, s': Engine, e: nat)
    requires OnlyAt(s, s', e)
    ensures |s'.enums| == |s.enums|
  {}

  lemma AllAInv(s: Engine, entries: seq<Value>)
    requires AInv(s) && forall v :: v in entries ==> KnownValue(s, v)
    ensures AInv(All(s, entries))
  {
    hide AInv, Building, KnownValue, EachEntryFrom, Fulfill;
    var e, p, n := |s.enums|, |s.heap|, |entries|;
    var en := Enumerator(p, entries, n, Nones(n), Nones(n));
    var s1 := MakePromise(s, AllOf(e)).(enums := s.enums + [en]);
    BuildStart(s, entries);
    assert s1.enums[e] == en;
    if entries == [] {
      assert Nones<Value>(n) == [];
      BuildEnd(s1, e);
    } else {
      BuildFrom(s1, e, 0);
      AllShape(s1, e, 0);
      BuildEnd(EachEntryFrom(s1, e, 0), e);
    }
  }

  // ---------- every move ----------

  lemma HandleAInv(s: Engine, i: nat, p: PId, sub: Sub, from: Option<nat>)
    requires Inv(s) && AInv(s) && AtSub(s, i, p, sub, from)
    ensures s.heap[p].state != Pending && sub in s.heap[p].history && AInv(Handle(s, i, p, sub, from))
  {
    AtSubGood(s, i, p, sub, from);
    assert GoodPromise(s, p) && GoodSub(s, p, sub);
    if sub.AllEntry? {
      HandleAllEntry(s, i, p, sub, from);
    } else {
      var state, value := s.heap[p].state, s.heap[p].result;
      if s.heap[p].kind.Entry? {
        EntryHistory(s, p);
        assert false;
      }
      var s1 := Log(s, p, sub);
      var s2 := Advance(s1, i, p, from);
      NoAllUpdate(s, s2, p);
      NoAllInv(s, s2);
      if sub.Then? {
        NoAllUpdate(s, Enter(s1, i, p, sub, from), p);
        NoAllInv(s, Enter(s1, i, p, sub, from));
      }
      HandlePlain(s, s2, i, p, sub, from);
    }
  }

  lemma HandlePlain(s: Engine, s2: Engine, i: nat, p: PId, sub: Sub, from: Option<nat>)
    requires Good(s) && i < |s.queue| && p < |s.heap| && sub in s.heap[p].history && s.heap[p].state != Pending
    requires s2 == Advance(Log(s, p, sub), i, p, from) && AInv(s2) && !sub.AllEntry?
    requires sub.Then? ==> AInv(Enter(Log(s, p, sub), i, p, sub, from))
    ensures AInv(Handle(s, i, p, sub, from))
  {
    assert GoodPromise(s, p) && GoodSub(s, p, sub);
    hide AInv;
    var state, value := s.heap[p].state, s.heap[p].result;
    if !Handler(sub, state) {
      match sub {
        case Then(_, child, _, _) =>
          NoAllSettle(s2, child, value);
          NoAllSelf(s2);
          NoAllInv(s2, PassOn(s2, state, child, value));
        case Adopt(t) =>
          if s2.heap[t].kind.Entry? {
            if s2.heap[t].state == Pending {
              AdoptEntry(s2, Handle(s, i, p, sub, from), t, p, state, value);
            }
          } else {
            NoAllSettle(s2, t, value);
            if state == Fulfilled {
              NoAllResolve(s2, t, value);
            }
            NoAllInv(s2, Handle(s, i, p, sub, from));
          }
      }
    }
  }

  /** Every move keeps every enumerator in step with the promises it waits for. */
  lemma NextAInv(s: Engine, m: Move)
    requires Inv(s) && AInv(s) && Enabled(s, m)
    ensures AInv(Next(s, m))
  {
    match m {
      case UserNew =>
        MakeNoAll(s, Constructed);
      case UserResolve(p, v) =>
        NoAllResolve(s, p, v);
        NoAllInv(s, Resolve(s, p, v));
      case UserReject(p, v) =>
        NoAllSettle(s, p, v);
        NoAllInv(s, Reject(s, p, v));
      case UserThen(p, f, r) =>
        NoAllThen(s, p, f, r);
        NoAllInv(s, ThenCall(s, p, f, r));
      case UserAll(entries) =>
        AllAInv(s, entries);
      case UserReturns(c) =>
        var Running(i, p, sub, from) := s.control;
        assert GoodPromise(s, p) && GoodSub(s, p, sub);
        var s1 := Advance(s, i, p, from);
        NoAllInv(s, s1);
        NoAllComplete(s1, sub.child, c);
        NoAllInv(s1, Promises.Complete(s1, sub.child, c));
      case FlushTurn =>
        FlushTurnAInv(s);
      case PublishTurn =>
        PublishTurnAInv(s);
    }
  }

  lemma MakeNoAll(s: Engine, kind: Kind)
    requires AInv(s) && !kind.Entry?
    ensures AInv(MakePromise(s, kind))
  {
    NoAllInv(s, MakePromise(s, kind));
  }

  lemma FlushTurnAInv(s: Engine)
    requires Inv(s) && AInv(s) && Enabled(s, FlushTurn)
    ensures AInv(Next(s, FlushTurn))
  {
    var i := s.control.i;
    if i < |s.queue| && s.queue[i].InvokeThen? {
      assert GoodJob(s, s.queue[i]);
      HandleAInv(s, i, s.queue[i].p, s.queue[i].sub, None);
    } else {
      NoAllInv(s, Next(s, FlushTurn));
    }
  }

  lemma PublishTurnAInv(s: Engine)
    requires Inv(s) && AInv(s) && Enabled(s, PublishTurn)
    ensures AInv(Next(s, PublishTurn))
  {
    var Publishing(i, p, j) := s.control;
    if j < |s.heap[p].subscribers| {
      HandleAInv(s, i, p, s.heap[p].subscribers[j], Some(j));
    } else {
      NoAllUpdate(s, Next(s, PublishTurn), p);
      NoAllInv(s, Next(s, PublishTurn));
    }
  }

  // ---------- listeners are told ----------

  /** The listener t of an entry is subscribed to it, and is settled once that subscription has run. */
  ghost predicate Told(s: Engine, t: PId)
    requires t < |s.heap|
  {
    s.heap[t].kind.Entry? ==>
      var q := s.heap[t].kind.entry;
      && q < |s.heap| && Adopt(t) in s.heap[q].history
      && forall r :: r in s.heap[q].ran && r.sub == Adopt(t) ==> s.heap[t].state != Pending
  }

  ghost predicate AllTold(s: Engine) {
    forall t :: 0 <= t < |s.heap| ==> Told(s, t)
  }

  /** Nothing was run, and new listeners are subscribed. */
  lemma CalmTold(s: Engine, s': Engine)
    requires AllTold(s) && Calm(s, s')
    requires forall t :: |s.heap| <= t < |s'.heap| ==> Told(s', t)
    ensures AllTold(s')
  {
    forall t | 0 <= t < |s'.heap|
      ensures Told(s', t)
    {
      if t < |s.heap| {
        assert Told(s, t);
        assert Kept(s.heap[t], s'.heap[t]);
        if s.heap[t].kind.Entry? {
          assert Kept(s.heap[s.heap[t].kind.entry], s'.heap[s.heap[t].kind.entry]);
        }
      }
    }
  }

  lemma EachEntryTold(s: Engine, e: nat, i: nat)
    requires e < |s.enums| && i < |s.enums[e].result| == |s.enums[e].entries| == |s.enums[e].sources|
    requires s.enums[e].promise < |s.heap| && KnownValue(s, s.enums[e].entries[i]) && AllTold(s) && Inv(s)
    ensures AllTold(EachEntry(s, e, i))
  {
    CalmEachEntry(s, e, i);
    var s' := EachEntry(s, e, i);
    match s.enums[e].entries[i] {
      case Own(q) =>
        if s.heap[q].state == Pending {
          EachEntryPending(s, e, i, q);
          hide EachEntry;
          assert Adopt(|s.heap|) in s'.heap[q].history;
          assert Account(s, q);
        } else {
          SettledAtEffect(s, e, i, s.heap[q].state, s.heap[q].result);
        }
      case _ =>
    }
    CalmTold(s, s');
  }

  lemma EachEntryFromTold(s: Engine, e: nat, i: nat)
    requires e < |s.enums| && i <= |s.enums[e].result| == |s.enums[e].entries| == |s.enums[e].sources|
    requires s.enums[e].promise < |s.heap| && (forall v :: v in s.enums[e].entries ==> KnownValue(s, v))
    requires AllTold(s) && Inv(s)
    ensures AllTold(EachEntryFrom(s, e, i))
    decreases |s.enums[e].result| - i
  {
    hide Inv, EachEntry, KnownValue, AllTold;
    if i < |s.enums[e].result| {
      assert s.enums[e].entries[i] in s.enums[e].entries;
      EachEntryInv(s, e, i);
      EachEntryShape(s, e, i);
      EachEntryTold(s, e, i);
      EachEntryFromTold(EachEntry(s, e, i), e, i + 1);
    }
  }

  lemma FulfillTold(s: Engine, p: PId, v: Value)
    requires p < |s.heap| && AllTold(s)
    ensures AllTold(Fulfill(s, p, v))
  {
    CalmBasics(s, p, v, Adopt(0));
    CalmTold(s, Fulfill(s, p, v));
  }

  lemma AllCallTold(s: Engine, entries: seq<Value>)
    requires AllTold(s) && Inv(s) && forall v :: v in entries ==> KnownValue(s, v)
    ensures AllTold(All(s, entries))
  {
    var e, p, n := |s.enums|, |s.heap|, |entries|;
    var s0 := MakePromise(s, AllOf(e));
    var s1 := s0.(enums := s.enums + [Enumerator(p, entries, n, Nones(n), Nones(n))]);
    CalmMake(s, AllOf(e));
    CalmEnums(s0, s1.enums);
    CalmTrans(s, s0, s1);
    CalmTold(s, s1);
    if entries == [] {
      FulfillTold(s1, p, AllResult([]));
    } else {
      MakeInv(s, AllOf(e));
      assert forall v :: v in entries ==> KnownValue(s, v) && KnownValue(s1, v);
      forall k | 0 <= k < |s1.enums|
        ensures GoodEnumerator(s1, k)
      {
        if k < |s.enums| {
          assert GoodEnumerator(s0, k);
        }
      }
      SameHeapInv(s0, s1);
      EachEntryFromTold(s1, e, 0);
      AllShape(s1, e, 0);
      var s2 := EachEntryFrom(s1, e, 0);
      if s2.enums[e].remaining == 0 {
        FulfillTold(s2, p, AllResult(s2.enums[e].result));
      }
    }
  }

  /** Handling a subscription: the log gains one run, and if that was an adoption its target is settled now. */
  lemma HandleTold(s: Engine, i: nat, p: PId, sub: Sub, from: Option<nat>)
    requires Good(s) && AllTold(s) && i < |s.queue| && p < |s.heap| && sub in s.heap[p].history
    requires s.heap[p].state != Pending && |Handle(s, i, p, sub, from).heap| == |s.heap|
    ensures AllTold(Handle(s, i, p, sub, from))
  {
    var s' := Handle(s, i, p, sub, from);
    var s1 := Log(s, p, sub);
    CalmHandle(s, i, p, sub, from);
    assert GoodPromise(s, p) && GoodSub(s, p, sub);
    if sub.Adopt? && s.heap[sub.target].kind.Entry? {
      AdoptSettles(s, i, p, sub, from);
    }
    hide Handle;
    forall t | 0 <= t < |s'.heap|
      ensures Told(s', t)
    {
      assert Told(s, t);
      assert Kept(s.heap[t], s'.heap[t]);
      if s.heap[t].kind.Entry? {
        var q := s.heap[t].kind.entry;
        assert Kept(s.heap[q], s'.heap[q]);
        assert s'.heap[q].ran == s1.heap[q].ran;
      }
    }
  }

  lemma AdoptSettles(s: Engine, i: nat, p: PId, sub: Sub, from: Option<nat>)
    requires Good(s) && i < |s.queue| && p < |s.heap| && sub in s.heap[p].history && s.heap[p].state != Pending
    requires sub.Adopt? && GoodSub(s, p, sub)
    ensures sub.target < |Handle(s, i, p, sub, from).heap|
    ensures s.heap[sub.target].kind.Entry? ==> Handle(s, i, p, sub, from).heap[sub.target].state != Pending
  {
    assert GoodPromise(s, p);
  }

  lemma HandleSize(s: Engine, i: nat, p: PId, sub: Sub, from: Option<nat>)
    requires Good(s) && i < |s.queue| && p < |s.heap| && sub in s.heap[p].history && s.heap[p].state != Pending
    ensures |Handle(s, i, p, sub, from).heap| == |s.heap|
  {
    assert GoodPromise(s, p) && GoodSub(s, p, sub);
    if sub.AllEntry? {
      var s2 := Advance(Log(s, p, sub), i, p, from);
      SettledAtEffect(s2, sub.enumerator, sub.index, s.heap[p].state, s.heap[p].result);
    }
  }

  lemma NextTold(s: Engine, m: Move)
    requires Inv(s) && AllTold(s) && Enabled(s, m)
    ensures AllTold(Next(s, m))
  {
    match m {
      case UserAll(entries) => AllCallTold(s, entries);
      case UserThen(p, f, r) => ThenTold(s, p, f, r);
      case FlushTurn => FlushTurnTold(s);
      case PublishTurn => PublishTurnTold(s);
      case UserNew =>
        MoveKeeps(s, m);
        CalmTold(s, Next(s, m));
      case _ =>
        MoveKeeps(s, m);
        NextSize(s, m);
        CalmTold(s, Next(s, m));
    }
  }

  lemma NextSize(s: Engine, m: Move)
    requires Inv(s) && Enabled(s, m) && (m.UserResolve? || m.UserReject? || m.UserReturns?)
    ensures |Next(s, m).heap| == |s.heap|
  {
    if m.UserReturns? {
      var Running(i, p, sub, from) := s.control;
      assert GoodPromise(s, p) && GoodSub(s, p, sub);
    }
  }

  lemma ThenTold(s: Engine, p: PId, f: bool, r: bool)
    requires AllTold(s) && p < |s.heap|
    ensures AllTold(ThenCall(s, p, f, r))
  {
    var s' := ThenCall(s, p, f, r);
    forall t | 0 <= t < |s'.heap|
      ensures Told(s', t)
    {
      if t < |s.heap| {
        assert Told(s, t);
      }
    }
  }

  lemma FlushTurnTold(s: Engine)
    requires Inv(s) && AllTold(s) && Enabled(s, FlushTurn)
    ensures AllTold(Next(s, FlushTurn))
  {
    var i := s.control.i;
    if i < |s.queue| && s.queue[i].InvokeThen? {
      var job := s.queue[i];
      assert GoodJob(s, job);
      HandleSize(s, i, job.p, job.sub, None);
      HandleTold(s, i, job.p, job.sub, None);
    } else {
      SameTold(s, Next(s, FlushTurn));
    }
  }

  lemma SameTold(s: Engine, s': Engine)
    requires AllTold(s) && |s'.heap| == |s.heap|
    requires forall t :: 0 <= t < |s.heap| ==>
               && s'.heap[t].kind == s.heap[t].kind && s'.heap[t].state == s.heap[t].state
               && s'.heap[t].history == s.heap[t].history && s'.heap[t].ran == s.heap[t].ran
    ensures AllTold(s')
  {
    forall t | 0 <= t < |s'.heap|
      ensures Told(s', t)
    {
      assert Told(s, t);
    }
  }

  lemma PublishTurnTold(s: Engine)
    requires Inv(s) && AllTold(s) && Enabled(s, PublishTurn)
    ensures AllTold(Next(s, PublishTurn))
  {
    var Publishing(i, p, j) := s.control;
    assert GoodPromise(s, p);
    if j < |s.heap[p].subscribers| {
      HandleSize(s, i, p, s.heap[p].subscribers[j], Some(j));
      HandleTold(s, i, p, s.heap[p].subscribers[j], Some(j));
    } else {
      SameTold(s, Next(s, PublishTurn));
    }
  }

  // ---------- theorems ----------

  lemma {:induction false} AlwaysAll(es: seq<Engine>, ms: seq<Move>, i: nat)
    requires Execution(es, ms) && i < |es|
    ensures Inv(es[i]) && AInv(es[i]) && AllTold(es[i])
  {
    hide Next, Enabled, AInv, AllTold, GoodControl, GoodPromise, GoodEnumerator, GoodJobs, Account, Fifo;
    Always(es, ms, i);
    if i > 0 {
      MoveAt(es, ms, i - 1);
      AlwaysAll(es, ms, i - 1);
      NextAInv(es[i - 1], ms[i - 1]);
      NextTold(es[i - 1], ms[i - 1]);
    } else {
      NewAll();
    }
  }

  lemma NewAll()
    ensures AInv(NEW) && AllTold(NEW)
  {}

  /** At any moment: a fulfilled Promise.all holds one value per entry, in input order, each the entry itself or the
      value of that very promise; a rejected one has the reason of one of its entries; and while it is pending,
      _remaining counts the indices without a result, of which there is at least one. */
  lemma AllAtAnyMoment(es: seq<Engine>, ms: seq<Move>, i: nat, e: nat)
    requires Execution(es, ms) && i < |es| && e < |es[i].enums|
    ensures GoodEnumerator(es[i], e)
    ensures var s, en := es[i], es[i].enums[e];
            var p := s.heap[en.promise];
            && p.kind == AllOf(e)
            && (p.state == Fulfilled ==>
                  && p.result == AllResult(en.result)
                  && forall k :: 0 <= k < |en.entries| ==> HasValue(s, en.entries[k], en.result[k]))
            && (p.state == Rejected ==> exists k :: 0 <= k < |en.entries| && RejectedBy(s, en.entries[k], p.result))
            && (p.state == Pending ==> en.remaining == Unset(en.result) > 0)
  {
    AlwaysAll(es, ms, i);
    var s, en := es[i], es[i].enums[e];
    assert Complete(s, e);
    if s.heap[en.promise].state == Fulfilled {
      forall k | 0 <= k < |en.entries|
        ensures HasValue(s, en.entries[k], en.result[k])
      {
        assert Slot(s, e, k);
      }
    }
  }

  ghost predicate HasValue(s: Engine, entry: Value, r: Option<Value>) {
    if entry.Own? then
      entry.p < |s.heap| && s.heap[entry.p].state == Fulfilled && r == Some(s.heap[entry.p].result)
    else r == Some(entry)
  }

  ghost predicate EntryFulfilled(s: Engine, entry: Value) {
    entry.Own? ==> entry.p < |s.heap| && s.heap[entry.p].state == Fulfilled
  }

  ghost predicate EntryRejected(s: Engine, entry: Value) {
    entry.Own? && entry.p < |s.heap| && s.heap[entry.p].state == Rejected
  }

  lemma IdleRan(s: Engine, p: PId)
    requires Inv(s) && s.control.Idle? && p < |s.heap|
    ensures s.heap[p].state != Pending ==> SubsOf(s.heap[p].ran) == s.heap[p].history
  {
    assert Account(s, p);
    if s.heap[p].state != Pending {
      assert Outstanding(s, p) == [];
    }
  }

  /** When nothing is left to run, a settled entry has settled its listener. */
  lemma SettledEntryTells(s: Engine, t: PId)
    requires Inv(s) && AllTold(s) && s.control.Idle? && t < |s.heap| && s.heap[t].kind.Entry?
    requires s.heap[t].kind.entry < |s.heap| && s.heap[s.heap[t].kind.entry].state != Pending
    ensures s.heap[t].state != Pending
  {
    var q := s.heap[t].kind.entry;
    assert Told(s, t);
    IdleRan(s, q);
    SubsOfLength(s.heap[q].ran);
    var n :| 0 <= n < |s.heap[q].history| && s.heap[q].history[n] == Adopt(t);
    assert s.heap[q].ran[n].sub == Adopt(t) && s.heap[q].ran[n] in s.heap[q].ran;
  }

  /** An entry whose index has no result while the whole is pending, when nothing is left to run, is pending itself. */
  lemma MissingIsPending(s: Engine, e: nat, k: nat)
    requires Inv(s) && AInv(s) && AllTold(s) && s.control.Idle? && e < |s.enums| && k < |s.enums[e].entries|
    requires GoodEnumerator(s, e) && s.heap[s.enums[e].promise].state == Pending && s.enums[e].result[k].None?
    ensures s.enums[e].entries[k].Own? && s.enums[e].entries[k].p < |s.heap|
    ensures s.heap[s.enums[e].entries[k].p].state == Pending
  {
    assert Complete(s, e) && Slot(s, e, k);
    var t := s.enums[e].sources[k].value;
    IdleRan(s, t);
    SubsOfLength(s.heap[t].ran);
    if s.heap[s.heap[t].kind.entry].state != Pending {
      SettledEntryTells(s, t);
    }
  }

  /** THE PROMISE.ALL THEOREM. Whenever control is back with the caller, the promise is fulfilled exactly when every
      entry is, and rejected exactly when some entry is. */
  lemma AllWhenIdle(es: seq<Engine>, ms: seq<Move>, i: nat, e: nat)
    requires Execution(es, ms) && i < |es| && e < |es[i].enums| && es[i].control.Idle?
    ensures GoodEnumerator(es[i], e)
    ensures var s, en := es[i], es[i].enums[e];
            && (s.heap[en.promise].state == Fulfilled <==> forall v :: v in en.entries ==> EntryFulfilled(s, v))
            && (s.heap[en.promise].state == Rejected <==> exists v :: v in en.entries && EntryRejected(s, v))
  {
    AlwaysAll(es, ms, i);
    AllAtAnyMoment(es, ms, i, e);
    var s, en := es[i], es[i].enums[e];
    var p := s.heap[en.promise];
    match p.state {
      case Fulfilled =>
        forall v | v in en.entries
          ensures EntryFulfilled(s, v)
        {
          var k :| 0 <= k < |en.entries| && en.entries[k] == v;
          assert HasValue(s, en.entries[k], en.result[k]);
        }
      case Rejected =>
        var k :| 0 <= k < |en.entries| && RejectedBy(s, en.entries[k], p.result);
        assert en.entries[k] in en.entries && EntryRejected(s, en.entries[k]) && !EntryFulfilled(s, en.entries[k]);
      case Pending =>
        assert GoodEnumerator(s, e) && e < |s.enums|;
        PendingEntries(s, e);
    }
  }

  lemma PendingEntries(s: Engine, e: nat)
    requires Inv(s) && AInv(s) && AllTold(s) && s.control.Idle? && e < |s.enums| && GoodEnumerator(s, e)
    requires s.heap[s.enums[e].promise].state == Pending
    ensures exists v :: v in s.enums[e].entries && !EntryFulfilled(s, v)
    ensures forall v :: v in s.enums[e].entries ==> !EntryRejected(s, v)
  {
    var en := s.enums[e];
    assert Complete(s, e);
    UnsetZero(en.result);
    var m :| 0 <= m < |en.result| && en.result[m].None?;
    MissingIsPending(s, e, m);
    assert en.entries[m] in en.entries && !EntryFulfilled(s, en.entries[m]);
    forall v | v in en.entries
      ensures !EntryRejected(s, v)
    {
      var k :| 0 <= k < |en.entries| && en.entries[k] == v;
      assert Slot(s, e, k);
      if en.result[k].None? {
        MissingIsPending(s, e, k);
      }
    }
  }

  /** The first rejection is final: from then on neither state nor reason changes, whatever the other entries do. */
  lemma FirstRejectionFinal(es: seq<Engine>, ms: seq<Move>, i: nat, j: nat, e: nat)
    requires Execution(es, ms) && i <= j < |es| && e < |es[i].enums| && GoodEnumerator(es[i], e)
    requires es[i].heap[es[i].enums[e].promise].state == Rejected
    ensures var p := es[i].enums[e].promise;
            p < |es[j].heap| && es[j].heap[p].state == Rejected && es[j].heap[p].result == es[i].heap[p].result
  {
    SettledForever(es, ms, i, j, es[i].enums[e].promise);
  }
}
