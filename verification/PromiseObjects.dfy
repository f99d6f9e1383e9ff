/** The same engine on mutable promise objects: every operation of es6-promise.js updates the fields the script updates,
    and is proved to do what the function of the same name in Promises says. */
module PromiseObjects {
  import opened Common
  import opened Promises

  /** One promise object; `history` and `ran` are ghost, as they are in no promise of the script. */
  class PromiseObject {
    const kind: Kind
    var state: State
    var result: Value
    var subscribers: seq<Sub>
    ghost var history: seq<Sub>
    ghost var ran: seq<Ran>

    constructor (kind: Kind)
      ensures View() == Promise(kind, Pending, Plain(0), [], [], [])
    {
      this.kind := kind;
      state, result, subscribers := Pending, Plain(0), [];
      history, ran := [], [];
    }

    ghost function View(): Promise
      reads this
    {
      Promise(kind, state, result, subscribers, history, ran)
    }
  }

  class PromiseLibrary {
    var promises: seq<PromiseObject>
    var queue: seq<Job>
    var enums: seq<Enumerator>
    var nextId: nat
    ghost var control: Control
    ghost var queued: seq<Job>
    ghost var done: seq<Job>
    ghost var calls: seq<Call>

    ghost predicate Valid()
      reads this
    {
      forall i, j :: 0 <= i < j < |promises| ==> promises[i] != promises[j]
    }

    ghost function Heap(): (h: seq<Promise>)
      reads this, promises
      ensures |h| == |promises| && forall i :: 0 <= i < |h| ==> h[i] == promises[i].View()
    {
      seq(|promises|, i requires 0 <= i < |promises| reads this, promises => promises[i].View())
    }

    ghost function View(): Engine
      reads this, promises
    {
      Engine(Heap(), queue, control, enums, nextId, queued, done, calls)
    }

    constructor ()
      ensures Valid() && View() == NEW
    {
      promises, queue, enums, nextId := [], [], [], 0;
      control, queued, done, calls := Idle, [], [], [];
      new;
      assert Heap() == [];
    }

    /** asap: append; the first job of an empty queue starts flush. */
    method AsapJob(job: Job) returns (startFlush: bool)
      requires Valid()
      modifies this`queue, this`queued, this`control
      ensures Valid() && View() == Asap(old(View()), job)
      ensures startFlush == (old(queue) == [])
    {
      startFlush := queue == [];
      queue := queue + [job];
      queued := queued + [job];
      if startFlush {
        control := Flushing(0);
      }
      assert Heap() == old(Heap());
    }

    method NewPromise(kind: Kind) returns (p: PId)
      requires Valid()
      modifies this`promises
      ensures Valid() && View() == MakePromise(old(View()), kind) && p == |old(promises)|
      ensures fresh(promises[p]) && promises == old(promises) + [promises[p]]
    {
      p := |promises|;
      var o := new PromiseObject(kind);
      promises := promises + [o];
      assert Heap() == old(Heap()) + [o.View()];
    }

    method FulfillPromise(p: PId, value: Value)
      requires Valid() && p < |promises|
      modifies this`queue, this`queued, this`control, promises[p]
      ensures Valid() && View() == Fulfill(old(View()), p, value)
    {
      var o := promises[p];
      if o.state != Pending {
        assert Heap() == old(Heap());
        return;
      }
      o.result := value;
      o.state := Fulfilled;
      assert Heap() == old(Heap())[p := o.View()];
      if o.subscribers != [] {
        var _ := AsapJob(Publish(p));
      }
    }

    method RejectPromise(p: PId, reason: Value)
      requires Valid() && p < |promises|
      modifies this`queue, this`queued, this`control, promises[p]
      ensures Valid() && View() == Reject(old(View()), p, reason)
    {
      var o := promises[p];
      if o.state != Pending {
        assert Heap() == old(Heap());
        return;
      }
      o.state := Rejected;
      o.result := reason;
      assert Heap() == old(Heap())[p := o.View()];
      var _ := AsapJob(PublishRejection(p));
    }

    method SubscribePromise(parent: PId, sub: Sub)
      requires Valid() && parent < |promises|
      modifies this`queue, this`queued, this`control, promises[parent]
      ensures Valid() && View() == Subscribe(old(View()), parent, sub)
    {
      var o := promises[parent];
      var length := |o.subscribers|;
      o.subscribers := o.subscribers + [sub];
      o.history := o.history + [sub];
      assert Heap() == old(Heap())[parent := o.View()];
      if length == 0 && o.state != Pending {
        var _ := AsapJob(Publish(parent));
      }
    }

    /** resolve, with handleMaybeThenable and handleOwnThenable. */
    method ResolvePromise(p: PId, value: Value)
      requires Valid() && p < |promises| && KnownValue(View(), value)
      modifies this`queue, this`queued, this`control, promises
      ensures Valid() && View() == Resolve(old(View()), p, value)
    {
      if value == Own(p) {
        RejectPromise(p, SelfFulfillment);
      } else if value.Own? {
        var thenable := promises[value.p];
        if thenable.state == Fulfilled {
          FulfillPromise(p, thenable.result);
        } else if thenable.state == Rejected {
          RejectPromise(p, thenable.result);
        } else {
          SubscribePromise(value.p, Adopt(p));
        }
      } else {
        FulfillPromise(p, value);
      }
    }

    method ThenOn(parent: PId, onFulfilled: bool, onRejected: bool) returns (child: PId)
      requires Valid() && parent < |promises|
      modifies this`queue, this`queued, this`control, this`promises, this`nextId, promises[parent]
      ensures Valid() && View() == ThenCall(old(View()), parent, onFulfilled, onRejected) && child == |old(promises)|
    {
      child := NewPromise(Child);
      var sub := Then(nextId, child, onFulfilled, onRejected);
      nextId := nextId + 1;
      assert View() == MakePromise(old(View()), Child).(regs := nextId);
      if promises[parent].state != Pending {
        var o := promises[parent];
        ghost var heap := Heap();
        o.history := o.history + [sub];
        assert Heap() == heap[parent := o.View()];
        var _ := AsapJob(InvokeThen(parent, sub));
      } else {
        SubscribePromise(parent, sub);
      }
    }

    /** invokeCallback after its handler came back with `c`. */
    method CallbackDone(child: PId, c: Completion)
      requires Valid() && child < |promises| && (c.Return? ==> KnownValue(View(), c.value))
      modifies this`queue, this`queued, this`control, promises
      ensures Valid() && View() == Promises.Complete(old(View()), child, c)
    {
      if c == Return(Own(child)) {
        RejectPromise(child, ReturnedOwn);
      } else if promises[child].state != Pending {
        // noop
      } else if c.Return? {
        ResolvePromise(child, c.value);
      } else {
        RejectPromise(child, c.error);
      }
    }

    /** Enumerator._settledAt */
    method EntrySettled(e: nat, i: nat, state: State, value: Value)
      requires Valid() && e < |enums| && i < |enums[e].result| && enums[e].promise < |promises|
      modifies this`queue, this`queued, this`control, this`enums, promises[enums[e].promise]
      ensures Valid() && View() == SettledAt(old(View()), e, i, state, value)
    {
      hide Fulfill;
      var p := enums[e].promise;
      if promises[p].state == Pending {
        enums := enums[e := enums[e].(remaining := enums[e].remaining - 1)];
        assert Heap() == old(Heap());
        if state == Rejected {
          RejectPromise(p, value);
        } else {
          enums := enums[e := enums[e].(result := enums[e].result[i := Some(value)])];
          assert Heap() == old(Heap());
        }
      } else {
        assert Heap() == old(Heap());
      }
      ghost var s, en := old(View()), old(enums[e]);
      assert View() == if s.heap[p].state != Pending then s
                       else if state == Rejected then
                         Reject(s.(enums := s.enums[e := en.(remaining := en.remaining - 1)]), p, value)
                       else s.(enums := s.enums[e := en.(remaining := en.remaining - 1,
                                                         result := en.result[i := Some(value)])]);
      if enums[e].remaining == 0 {
        FulfillPromise(p, AllResult(enums[e].result));
      }
    }

    /** publish or flush at a subscription: either a callback of the user has to be called now (the result says which one,
        and with what), or what invokeCallback and the internal callbacks do without one. */
    method RunSubscription(i: nat, p: PId, sub: Sub, from: Option<nat>) returns (call: Option<Call>)
      requires Valid() && Good(View()) && AtSub(View(), i, p, sub, from)
      modifies this`queue, this`queued, this`control, this`done, this`calls, this`enums, promises
      ensures promises == old(promises) && Valid()
      ensures old(promises[p].state) != Pending && sub in old(promises[p].history)
      ensures View() == Handle(old(View()), i, p, sub, from)
      ensures call == if sub.Then? && sub.onFulfilled && old(promises[p].state) == Fulfilled then
                        Some(Call(p, sub.reg, OnFulfilled, old(promises[p].result)))
                      else if sub.Then? && sub.onRejected && old(promises[p].state) == Rejected then
                        Some(Call(p, sub.reg, OnRejected, old(promises[p].result)))
                      else None
      ensures calls == old(calls) + if call.Some? then [call.value] else []
    {
      AtSubGood(View(), i, p, sub, from);
      CanPerformNow(View(), i, p, sub, from);
      assert i < |queue|;
      hide Performed, CanPerform, Good, AtSub, Enter, Advance, Log;
      var state, value := promises[p].state, promises[p].result;
      LogRun(p, sub);
      call := None;
      if Handler(sub, state) {
        var entered := EnterCallback(i, p, sub, from);
        call := Some(entered);
      } else {
        PassBy(i, p, sub, from, state, value);
      }
    }

    method PassBy(i: nat, p: PId, sub: Sub, from: Option<nat>, state: State, value: Value)
      requires Valid() && i < |queue| && CanPerform(Advance(View(), i, p, from), sub, state, value)
      modifies this`queue, this`queued, this`control, this`done, this`enums, promises
      ensures Valid() && View() == Performed(Advance(old(View()), i, p, from), sub, state, value)
    {
      hide Performed, CanPerform, Advance;
      Past(i, p, from);
      Perform(sub, state, value);
    }

    ghost method LogRun(p: PId, sub: Sub)
      requires Valid() && p < |promises|
      modifies promises[p]
      ensures Valid() && View() == Log(old(View()), p, sub)
      ensures promises[p].state == old(promises[p].state) && promises[p].result == old(promises[p].result)
    {
      var o := promises[p];
      o.ran := o.ran + [Ran(sub, o.state, o.result)];
      assert Heap() == old(Heap())[p := o.View()];
    }

    /** The callback for p's fate is called with its value. */
    method EnterCallback(i: nat, p: PId, sub: Sub, from: Option<nat>) returns (call: Call)
      requires Valid() && p < |promises| && sub.Then?
      modifies this`control, this`calls
      ensures View() == Enter(old(View()), i, p, sub, from) && calls == old(calls) + [call]
      ensures call == Call(p, sub.reg, if promises[p].state == Fulfilled then OnFulfilled else OnRejected, promises[p].result)
    {
      var o := promises[p];
      call := Call(p, sub.reg, if o.state == Fulfilled then OnFulfilled else OnRejected, o.result);
      calls := calls + [call];
      control := Running(i, p, sub, from);
      assert Heap() == old(Heap());
    }

    /** What a subscription does that needs no user code. */
    method Perform(sub: Sub, state: State, value: Value)
      requires Valid() && CanPerform(View(), sub, state, value)
      modifies this`queue, this`queued, this`control, this`enums, promises
      ensures Valid() && View() == Performed(old(View()), sub, state, value)
    {
      hide Reject, Fulfill, Resolve, SettledAt;
      match sub {
        case Then(_, child, _, _) =>
          if promises[child].state == Pending {
            if state == Fulfilled {
              FulfillPromise(child, value);
            } else {
              RejectPromise(child, value);
            }
          }
        case Adopt(t) =>
          if state == Fulfilled {
            ResolvePromise(t, value);
          } else {
            RejectPromise(t, value);
          }
        case AllEntry(e, k) =>
          EntrySettled(e, k, state, value);
      }
    }

    /** The loops go on behind the subscription just handled. */
    ghost method Past(i: nat, p: PId, from: Option<nat>)
      requires Valid() && i < |queue|
      modifies this`control, this`done
      ensures View() == Advance(old(View()), i, p, from)
    {
      match from {
        case Some(j) =>
          control := Publishing(i, p, j + 1);
        case None =>
          control := Flushing(i + 1);
          done := done + [queue[i]];
      }
      assert Heap() == old(Heap());
    }

    /** One turn of the loop of flush at job i; the last one leaves the queue empty. */
    method FlushStep(i: nat) returns (call: Option<Call>)
      requires Valid() && Good(View()) && control == Flushing(i)
      modifies this`queue, this`queued, this`control, this`done, this`calls, this`enums, promises
      ensures promises == old(promises) && Valid() && View() == Next(old(View()), FlushTurn)
      ensures calls == old(calls) + if call.Some? then [call.value] else []
    {
      call := None;
      if i == |queue| {
        queue := [];
        control := Idle;
        assert Heap() == old(Heap());
        return;
      }
      var job := queue[i];
      assert GoodJob(View(), job);
      match job {
        case InvokeThen(p, sub) =>
          call := RunSubscription(i, p, sub, None);
        case _ =>
          if promises[job.p].subscribers == [] {
            control := Flushing(i + 1);
            done := done + [job];
          } else {
            control := Publishing(i, job.p, 0);
          }
          assert Heap() == old(Heap());
      }
    }

    /** One turn of the loop of publish at subscriber j; the last one empties the array. */
    method PublishStep(i: nat, p: PId, j: nat) returns (call: Option<Call>)
      requires Valid() && Good(View()) && control == Publishing(i, p, j)
      modifies this`queue, this`queued, this`control, this`done, this`calls, this`enums, promises
      ensures promises == old(promises) && Valid() && View() == Next(old(View()), PublishTurn)
      ensures calls == old(calls) + if call.Some? then [call.value] else []
    {
      call := None;
      assert GoodPromise(View(), p);
      var o := promises[p];
      if j == |o.subscribers| {
        o.subscribers := [];
        control := Flushing(i + 1);
        done := done + [queue[i]];
        assert Heap() == old(Heap())[p := o.View()];
      } else {
        call := RunSubscription(i, p, o.subscribers[j], Some(j));
      }
    }

    /** A pending entry: a listener of its own adopts it, and the enumerator subscribes to the listener. */
    method ListenTo(e: nat, i: nat, q: PId) returns (t: PId)
      requires Valid() && q < |promises|
      modifies this`queue, this`queued, this`control, this`promises, promises[q]
      ensures Valid() && t == |old(promises)| && enums == old(enums)
      ensures View() == Subscribe(Subscribe(MakePromise(old(View()), Entry(q, e, i)), q, Adopt(t)), t, AllEntry(e, i))
      ensures fresh(promises[t]) && promises == old(promises) + [promises[t]]
    {
      hide Subscribe;
      t := NewPromise(Entry(q, e, i));
      SubscribePromise(q, Adopt(t));
      SubscribePromise(t, AllEntry(e, i));
    }

    /** Enumerator._eachEntry */
    method LookAtEntry(e: nat, i: nat)
      requires Valid() && e < |enums| && i < |enums[e].result| == |enums[e].entries| == |enums[e].sources|
      requires enums[e].promise < |promises| && KnownValue(View(), enums[e].entries[i])
      modifies this`queue, this`queued, this`control, this`enums, this`promises, promises
      ensures Valid() && View() == EachEntry(old(View()), e, i)
      ensures forall k :: 0 <= k < |promises| ==> promises[k] in old(promises) || fresh(promises[k])
    {
      hide SettledAt, Subscribe;
      match enums[e].entries[i] {
        case Own(q) =>
          if promises[q].state != Pending {
            EntrySettled(e, i, promises[q].state, promises[q].result);
          } else {
            var t := ListenTo(e, i, q);
            ghost var heap := Heap();
            enums := enums[e := enums[e].(sources := enums[e].sources[i := Some(t)])];
            assert Heap() == heap;
          }
        case entry =>
          enums := enums[e := enums[e].(remaining := enums[e].remaining - 1,
                                        result := enums[e].result[i := Some(entry)])];
          assert Heap() == old(Heap());
      }
    }

    /** Enumerator._enumerate: the loop never stops early, since the enumerator itself has no _state. */
    method Enumerate(e: nat)
      requires Valid() && e < |enums| && |enums[e].result| == |enums[e].entries| == |enums[e].sources|
      requires enums[e].promise < |promises| && forall v :: v in enums[e].entries ==> KnownValue(View(), v)
      modifies this`queue, this`queued, this`control, this`enums, this`promises, promises
      ensures Valid() && View() == EachEntryFrom(old(View()), e, 0)
      ensures e < |enums| && enums[e].promise == old(enums[e].promise) < |promises|
      ensures forall k :: 0 <= k < |promises| ==> promises[k] in old(promises) || fresh(promises[k])
    {
      hide EachEntry, KnownValue, Silent;
      ghost var start := View();
      var i := 0;
      while i < |enums[e].entries|
        invariant e < |enums| && |enums[e].result| == |enums[e].entries| == |enums[e].sources| == old(|enums[e].entries|)
        invariant i <= |enums[e].entries| && Valid()
        invariant enums[e].promise == old(enums[e].promise) < |promises|
        invariant forall v :: v in enums[e].entries ==> KnownValue(View(), v)
        invariant forall k :: 0 <= k < |promises| ==> promises[k] in old(promises) || fresh(promises[k])
        invariant EachEntryFrom(View(), e, i) == EachEntryFrom(start, e, 0)
      {
        assert enums[e].entries[i] in enums[e].entries;
        EachEntryShape(View(), e, i);
        LookAtEntry(e, i);
        i := i + 1;
      }
    }

    /** new Enumerator(Promise, entries).promise */
    method AllPromises(entries: seq<Value>) returns (p: PId)
      requires Valid() && forall v :: v in entries ==> KnownValue(View(), v)
      modifies this`queue, this`queued, this`control, this`enums, this`promises, promises
      ensures Valid() && View() == All(old(View()), entries) && p == |old(promises)|
    {
      hide Fulfill, EachEntryFrom;
      var e := |enums|;
      p := NewPromise(AllOf(e));
      ghost var heap := Heap();
      enums := enums + [Enumerator(p, entries, |entries|, Nones(|entries|), Nones(|entries|))];
      assert Heap() == heap;
      assert forall v :: v in entries ==> KnownValue(old(View()), v) && KnownValue(View(), v);
      hide KnownValue;
      if |entries| == 0 {
        FulfillPromise(p, AllResult([]));
      } else {
        AllShape(View(), e, 0);
        Enumerate(e);
        if enums[e].remaining == 0 {
          FulfillPromise(p, AllResult(enums[e].result));
        }
      }
    }
  }

  lemma CanPerformNow(s: Engine, i: nat, p: PId, sub: Sub, from: Option<nat>)
    requires Good(s) && i < |s.queue| && p < |s.heap| && sub in s.heap[p].history
    ensures CanPerform(Advance(Log(s, p, sub), i, p, from), sub, s.heap[p].state, s.heap[p].result)
    ensures sub.Then? ==> sub.child < |s.heap|
  {
    assert GoodPromise(s, p) && GoodSub(s, p, sub);
  }
}
