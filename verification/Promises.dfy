/** The promise engine: es6-promise with the synchronous scheduler of the watch, as a small-step machine.
 *
 * User code (executors, then callbacks, code between calls) is the environment: it may call the interface whenever
 * it has control, that is outside flush and inside a running callback, in any order and with any arguments.
 */
module Promises {
  import opened Common

  type PId = nat

  /** JavaScript values as far as the engine looks at them: own promises, and everything else. */
  datatype Value = Plain(n: int) | Own(p: PId) | SelfFulfillment | ReturnedOwn | AllResult(results: seq<Option<Value>>)

  datatype State = Pending | Fulfilled | Rejected

  /** Who may settle a promise: code holding its resolver; the callback of a then; the adoption of entry `index` of a
      Promise.all; the enumerator of a Promise.all. */
  datatype Kind = Constructed | Child | Entry(entry: PId, enumerator: nat, index: nat) | AllOf(enumerator: nat)

  /** One triple of _subscribers: the child with its two callbacks (are they functions?), or no child and the internal
      callbacks of handleOwnThenable or of the enumerator. `reg` numbers the calls of then. */
  datatype Sub = Then(reg: nat, child: PId, onFulfilled: bool, onRejected: bool)
               | Adopt(target: PId)
               | AllEntry(enumerator: nat, index: nat)

  /** One run of a subscription: the callback chosen by `state`, called with `value`. */
  datatype Ran = Ran(sub: Sub, state: State, value: Value)

  /** `history` (every subscription ever made, in order) and `ran` are bookkeeping of the model. */
  datatype Promise = Promise(kind: Kind, state: State, result: Value, subscribers: seq<Sub>, history: seq<Sub>,
                             ran: seq<Ran>)

  datatype Callback = OnFulfilled | OnRejected

  /** A callback of the user that was called: by promise p, for call number `reg` of then, with `value`. */
  datatype Call = Call(p: PId, reg: nat, callback: Callback, value: Value)

  datatype Job = Publish(p: PId) | PublishRejection(p: PId) | InvokeThen(p: PId, sub: Sub)

  /** Where the engine is. flush is at job i; publish at subscriber j of p; Running: a callback of subscription `sub`
      is executing, called from job i directly (from.None?) or from publish at subscriber from.value. */
  datatype Control = Idle
                   | Flushing(i: nat)
                   | Publishing(i: nat, p: PId, j: nat)
                   | Running(i: nat, p: PId, sub: Sub, from: Option<nat>)

  datatype Enumerator = Enumerator(promise: PId, entries: seq<Value>, remaining: int, result: seq<Option<Value>>,
                                   sources: seq<Option<PId>>)

  datatype Engine = Engine(heap: seq<Promise>, queue: seq<Job>, control: Control, enums: seq<Enumerator>, regs: nat,
                           queued: seq<Job>, done: seq<Job>, calls: seq<Call>)

  const NEW := Engine([], [], Idle, [], 0, [], [], [])

  // ---------- the engine ----------

  /** asap: with the synchronous scheduler, the first job in an empty queue starts flush at once. */
  function Asap(s: Engine, job: Job): Engine {
    s.(queue := s.queue + [job], queued := s.queued + [job],
       control := if s.queue == [] then Flushing(0) else s.control)
  }

  function MakePromise(s: Engine, kind: Kind): Engine {
    s.(heap := s.heap + [Promise(kind, Pending, Plain(0), [], [], [])])
  }

  function Settle(s: Engine, p: PId, state: State, value: Value): Engine
    requires p < |s.heap|
  {
    s.(heap := s.heap[p := s.heap[p].(state := state, result := value)])
  }

  /** No promise appears or changes hands. */
  predicate SameShape(s: Engine, r: Engine) {
    |r.heap| == |s.heap| && forall p :: 0 <= p < |s.heap| ==> r.heap[p].kind == s.heap[p].kind
  }

  /** No callback of a user is called or comes back; flush may start. */
  predicate Silent(s: Engine, r: Engine) {
    r.calls == s.calls && (r.control == s.control || r.control == Flushing(0))
  }

  function Fulfill(s: Engine, p: PId, value: Value): (r: Engine)
    requires p < |s.heap|
    ensures SameShape(s, r) && r.enums == s.enums && Silent(s, r)
  {
    if s.heap[p].state != Pending then s
    else
      var s1 := Settle(s, p, Fulfilled, value);
      if s.heap[p].subscribers != [] then Asap(s1, Publish(p)) else s1
  }

  function Reject(s: Engine, p: PId, reason: Value): (r: Engine)
    requires p < |s.heap|
    ensures SameShape(s, r) && r.enums == s.enums && Silent(s, r)
  {
    if s.heap[p].state != Pending then s
    else Asap(Settle(s, p, Rejected, reason), PublishRejection(p))
  }

  function Subscribe(s: Engine, parent: PId, sub: Sub): (r: Engine)
    requires parent < |s.heap|
    ensures SameShape(s, r) && r.enums == s.enums && Silent(s, r)
  {
    var q := s.heap[parent];
    var s1 := s.(heap := s.heap[parent := q.(subscribers := q.subscribers + [sub], history := q.history + [sub])]);
    if q.subscribers == [] && q.state != Pending then Asap(s1, Publish(parent)) else s1
  }

  function HandleOwnThenable(s: Engine, p: PId, thenable: PId): Engine
    requires p < |s.heap| && thenable < |s.heap|
  {
    match s.heap[thenable].state
    case Fulfilled => Fulfill(s, p, s.heap[thenable].result)
    case Rejected => Reject(s, p, s.heap[thenable].result)
    case Pending => Subscribe(s, thenable, Adopt(p))
  }

  predicate KnownValue(s: Engine, v: Value) {
    v.Own? ==> v.p < |s.heap| && !s.heap[v.p].kind.Entry?
  }

  function Resolve(s: Engine, p: PId, value: Value): Engine
    requires p < |s.heap| && KnownValue(s, value)
  {
    if value == Own(p) then Reject(s, p, SelfFulfillment)
    else if value.Own? then HandleOwnThenable(s, p, value.p)
    else Fulfill(s, p, value)
  }

  function ThenCall(s: Engine, parent: PId, onFulfilled: bool, onRejected: bool): Engine
    requires parent < |s.heap|
  {
    var sub := Then(s.regs, |s.heap|, onFulfilled, onRejected);
    var s1 := MakePromise(s, Child).(regs := s.regs + 1);
    if s.heap[parent].state != Pending then
      var q := s1.heap[parent];
      Asap(s1.(heap := s1.heap[parent := q.(history := q.history + [sub])]), InvokeThen(parent, sub))
    else Subscribe(s1, parent, sub)
  }

  // ---------- Promise.all ----------

  function SettledAt(s: Engine, e: nat, i: nat, state: State, value: Value): Engine
    requires e < |s.enums| && i < |s.enums[e].result| && s.enums[e].promise < |s.heap|
  {
    var en := s.enums[e];
    var p := en.promise;
    var s1 :=
      if s.heap[p].state != Pending then s
      else if state == Rejected then
        Reject(s.(enums := s.enums[e := en.(remaining := en.remaining - 1)]), p, value)
      else
        s.(enums := s.enums[e := en.(remaining := en.remaining - 1, result := en.result[i := Some(value)])]);
    if s1.enums[e].remaining == 0 then Fulfill(s1, p, AllResult(s1.enums[e].result)) else s1
  }

  function EachEntry(s: Engine, e: nat, i: nat): Engine
    requires e < |s.enums| && i < |s.enums[e].result| == |s.enums[e].entries| == |s.enums[e].sources|
    requires s.enums[e].promise < |s.heap| && KnownValue(s, s.enums[e].entries[i])
  {
    var en := s.enums[e];
    match en.entries[i]
    case Own(q) =>
      if s.heap[q].state != Pending then SettledAt(s, e, i, s.heap[q].state, s.heap[q].result)
      else
        var t := |s.heap|;
        var s1 := MakePromise(s, Entry(q, e, i));
        var s2 := Subscribe(s1, q, Adopt(t));
        Subscribe(s2, t, AllEntry(e, i)).(enums := s.enums[e := en.(sources := en.sources[i := Some(t)])])
    case entry =>
      s.(enums := s.enums[e := en.(remaining := en.remaining - 1, result := en.result[i := Some(entry)])])
  }

  function Nones<T>(n: nat): (r: seq<Option<T>>)
    ensures |r| == n && forall i :: 0 <= i < n ==> r[i] == None
  {
    seq(n, _ => None)
  }

  function EachEntryFrom(s: Engine, e: nat, i: nat): Engine
    requires e < |s.enums| && i <= |s.enums[e].result| == |s.enums[e].entries| == |s.enums[e].sources|
    requires s.enums[e].promise < |s.heap| && forall v :: v in s.enums[e].entries ==> KnownValue(s, v)
    decreases |s.enums[e].result| - i
  {
    if i == |s.enums[e].result| then s
    else
      assert s.enums[e].entries[i] in s.enums[e].entries;
      EachEntryShape(s, e, i);
      EachEntryFrom(EachEntry(s, e, i), e, i + 1)
  }

  lemma EachEntryShape(s: Engine, e: nat, i: nat)
    requires e < |s.enums| && i < |s.enums[e].result| == |s.enums[e].entries| == |s.enums[e].sources|
    requires s.enums[e].promise < |s.heap| && forall v :: v in s.enums[e].entries ==> KnownValue(s, v)
    ensures var s' := EachEntry(s, e, i);
            && |s'.enums| == |s.enums| && |s'.heap| >= |s.heap| && s'.enums[e].entries == s.enums[e].entries
            && |s'.enums[e].result| == |s.enums[e].result| && |s'.enums[e].sources| == |s.enums[e].sources|
            && s'.enums[e].promise == s.enums[e].promise
            && (forall p :: 0 <= p < |s.heap| ==> s'.heap[p].kind == s.heap[p].kind) && Silent(s, s')
            && forall v :: v in s'.enums[e].entries ==> KnownValue(s', v)
  {
    var s' := EachEntry(s, e, i);
    forall v | v in s'.enums[e].entries
      ensures KnownValue(s', v)
    {
      assert KnownValue(s, v);
    }
  }

  /** new Enumerator(Promise, entries).promise; the promise is the first one allocated. */
  function All(s: Engine, entries: seq<Value>): Engine
    requires forall v :: v in entries ==> KnownValue(s, v)
  {
    var e, p := |s.enums|, |s.heap|;
    var en := Enumerator(p, entries, |entries|, Nones(|entries|), Nones(|entries|));
    var s1 := MakePromise(s, AllOf(e)).(enums := s.enums + [en]);
    if entries == [] then Fulfill(s1, p, AllResult([]))
    else
      assert forall v :: v in entries ==> KnownValue(s, v) && KnownValue(s1, v);
      var s2 := EachEntryFrom(s1, e, 0);
      AllShape(s1, e, 0);
      if s2.enums[e].remaining == 0 then Fulfill(s2, p, AllResult(s2.enums[e].result)) else s2
  }

  lemma AllShape(s: Engine, e: nat, i: nat)
    requires e < |s.enums| && i <= |s.enums[e].result| == |s.enums[e].entries| == |s.enums[e].sources|
    requires s.enums[e].promise < |s.heap| && forall v :: v in s.enums[e].entries ==> KnownValue(s, v)
    ensures var s' := EachEntryFrom(s, e, i);
            |s'.enums| == |s.enums| && |s'.heap| >= |s.heap| && Silent(s, s')
    decreases |s.enums[e].result| - i
  {
    if i < |s.enums[e].result| {
      EachEntryShape(s, e, i);
      AllShape(EachEntry(s, e, i), e, i + 1);
    }
  }

  // ---------- running jobs ----------

  /** The handled subscription is behind us: the next turn of publish, or the next job of flush. */
  function Advance(s: Engine, i: nat, p: PId, from: Option<nat>): Engine
    requires i < |s.queue|
  {
    match from
    case Some(j) => s.(control := Publishing(i, p, j + 1))
    case None => s.(control := Flushing(i + 1), done := s.done + [s.queue[i]])
  }

  function Log(s: Engine, p: PId, sub: Sub): Engine
    requires p < |s.heap|
  {
    var q := s.heap[p];
    s.(heap := s.heap[p := q.(ran := q.ran + [Ran(sub, q.state, q.result)])])
  }

  /** invokeCallback when the chosen handler is not a function: the child takes the parent's fate. */
  function PassOn(s: Engine, state: State, child: PId, value: Value): Engine
    requires child < |s.heap|
  {
    if s.heap[child].state != Pending then s
    else if state == Fulfilled then Fulfill(s, child, value)
    else Reject(s, child, value)
  }

  datatype Completion = Return(value: Value) | Throw(error: Value)

  /** invokeCallback after the handler came back. */
  function Complete(s: Engine, child: PId, c: Completion): Engine
    requires child < |s.heap| && (c.Return? ==> KnownValue(s, c.value))
  {
    if c == Return(Own(child)) then Reject(s, child, ReturnedOwn)
    else if s.heap[child].state != Pending then s
    else match c
      case Return(v) => Resolve(s, child, v)
      case Throw(e) => Reject(s, child, e)
  }

  function Handler(sub: Sub, state: State): bool {
    sub.Then? && if state == Fulfilled then sub.onFulfilled else sub.onRejected
  }

  // ---------- well-formed engines ----------

  /** What a subscription found in the history of p refers to. */
  ghost predicate GoodSub(s: Engine, p: PId, sub: Sub)
    requires p < |s.heap|
  {
    match sub
    case Then(_, child, _, _) => child < |s.heap| && s.heap[child].kind == Child
    case Adopt(t) =>
      t < |s.heap| && !s.heap[t].kind.AllOf? && (s.heap[t].kind.Entry? ==> s.heap[t].kind.entry == p)
    case AllEntry(e, i) =>
      s.heap[p].kind.Entry? && s.heap[p].kind.enumerator == e && s.heap[p].kind.index == i && GoodIndex(s, e, i)
  }

  ghost predicate GoodIndex(s: Engine, e: nat, i: nat) {
    e < |s.enums| && i < |s.enums[e].result| && s.enums[e].promise < |s.heap|
  }

  ghost predicate GoodPromise(s: Engine, p: PId)
    requires p < |s.heap|
  {
    var q := s.heap[p];
    && (forall sub :: sub in q.history ==> GoodSub(s, p, sub))
    && (forall sub :: sub in q.subscribers ==> sub in q.history)
    && (q.state == Fulfilled ==> !q.result.Own?)
  }

  ghost predicate GoodEnumerator(s: Engine, e: nat)
    requires e < |s.enums|
  {
    var en := s.enums[e];
    && |en.entries| == |en.result| == |en.sources| && en.promise < |s.heap|
    && forall v :: v in en.entries ==> KnownValue(s, v)
  }

  ghost predicate GoodJob(s: Engine, job: Job) {
    && job.p < |s.heap| && s.heap[job.p].state != Pending
    && (job.InvokeThen? ==> job.sub.Then? && job.sub in s.heap[job.p].history)
  }

  ghost predicate GoodControl(s: Engine) {
    match s.control
    case Idle => s.queue == []
    case Flushing(i) => s.queue != [] && i <= |s.queue|
    case Publishing(i, p, j) =>
      i < |s.queue| && p < |s.heap| && s.heap[p].state != Pending && j <= |s.heap[p].subscribers|
    case Running(i, p, sub, from) =>
      && i < |s.queue| && p < |s.heap| && s.heap[p].state != Pending && sub.Then? && sub in s.heap[p].history
      && (from.Some? ==> from.value < |s.heap[p].subscribers| && s.heap[p].subscribers[from.value] == sub)
  }

  /** The first job flush has not started yet. */
  function Start(s: Engine): nat {
    match s.control
    case Idle => 0
    case Flushing(i) => i
    case Publishing(i, _, _) => i + 1
    case Running(i, _, _, _) => i + 1
  }

  /** The first job flush has not finished. */
  function Current(s: Engine): nat {
    match s.control
    case Idle => 0
    case Flushing(i) => i
    case Publishing(i, _, _) => i
    case Running(i, _, _, _) => i
  }

  ghost predicate GoodJobs(s: Engine) {
    forall k :: Start(s) <= k < |s.queue| ==> GoodJob(s, s.queue[k])
  }

  ghost predicate Good(s: Engine) {
    && GoodControl(s)
    && (forall p :: 0 <= p < |s.heap| ==> GoodPromise(s, p))
    && (forall e :: 0 <= e < |s.enums| ==> GoodEnumerator(s, e))
    && GoodJobs(s)
  }

  // ---------- the accounts ----------

  function From<T>(xs: seq<T>, i: nat): seq<T>
    decreases |xs| - i
  {
    if i >= |xs| then [] else [xs[i]] + From(xs, i + 1)
  }

  /** What one job will run of the subscriptions of p. */
  function Load(job: Job, p: PId, subscribers: seq<Sub>): seq<Sub> {
    if job.p != p then [] else if job.InvokeThen? then [job.sub] else subscribers
  }

  /** The subscriptions of p the jobs from i on will run, in order. */
  function Flat(queue: seq<Job>, i: nat, p: PId, subscribers: seq<Sub>): seq<Sub>
    decreases |queue| - i
  {
    if i >= |queue| then [] else Load(queue[i], p, subscribers) + Flat(queue, i + 1, p, subscribers)
  }

  function Publishes(job: Job, p: PId): nat {
    if job.p == p && !job.InvokeThen? then 1 else 0
  }

  function PublishCount(queue: seq<Job>, i: nat, p: PId): nat
    decreases |queue| - i
  {
    if i >= |queue| then 0 else Publishes(queue[i], p) + PublishCount(queue, i + 1, p)
  }

  predicate BeingPublished(c: Control, p: PId) {
    (c.Publishing? && c.p == p) || (c.Running? && c.p == p && c.from.Some?)
  }

  /** The rest of the subscriber array publish is walking now. */
  function InProgress(c: Control, p: PId, subscribers: seq<Sub>): seq<Sub> {
    match c
    case Publishing(_, q, j) => if q == p then From(subscribers, j) else []
    case Running(_, q, _, Some(j)) => if q == p then From(subscribers, j + 1) else []
    case _ => []
  }

  function SubsOf(ran: seq<Ran>): seq<Sub> {
    if ran == [] then [] else SubsOf(ran[..|ran| - 1]) + [ran[|ran| - 1].sub]
  }

  /** What is still to run of the subscriptions of p. */
  function Outstanding(s: Engine, p: PId): seq<Sub>
    requires p < |s.heap|
  {
    InProgress(s.control, p, s.heap[p].subscribers) + Flat(s.queue, Start(s), p, s.heap[p].subscribers)
  }

  function Publications(s: Engine, p: PId): nat {
    PublishCount(s.queue, Start(s), p) + (if BeingPublished(s.control, p) then 1 else 0)
  }

  ghost predicate NoJobFor(s: Engine, p: PId) {
    forall k :: Start(s) <= k < |s.queue| ==> s.queue[k].p != p
  }

  predicate Balanced(ran: seq<Ran>, outstanding: seq<Sub>, history: seq<Sub>) {
    SubsOf(ran) + outstanding == history
  }

  lemma BalancedRun(ran: seq<Ran>, r: Ran, outstanding: seq<Sub>, history: seq<Sub>)
    requires Balanced(ran, [r.sub] + outstanding, history)
    ensures Balanced(ran + [r], outstanding, history)
  {
    assert (ran + [r])[..|ran|] == ran;
    assert SubsOf(ran + [r]) == SubsOf(ran) + [r.sub];
  }

  lemma BalancedThen(ran: seq<Ran>, outstanding: seq<Sub>, history: seq<Sub>, sub: Sub)
    requires Balanced(ran, outstanding, history)
    ensures Balanced(ran, outstanding + [sub], history + [sub])
  {}

  lemma BalancedNew(history: seq<Sub>)
    ensures Balanced([], history, history)
  {}

  lemma Assoc(a: seq<Sub>, b: seq<Sub>, c: seq<Sub>)
    ensures (a + b) + c == a + (b + c)
  {}

  /** Every subscription of p is in exactly one place, in the order in which it was made: not yet published, or run, in
      progress, or waiting in a job. */
  ghost predicate Account(s: Engine, p: PId)
    requires p < |s.heap|
  {
    var q := s.heap[p];
    if q.state == Pending then
      q.ran == [] && q.history == q.subscribers && NoJobFor(s, p)
    else
      && Balanced(q.ran, Outstanding(s, p), q.history)
      && Publications(s, p) <= 1
      && forall r :: r in q.ran ==> r.state == q.state && r.value == q.result
  }

  /** Every job ever queued is finished or still in the queue, in order. */
  ghost predicate Fifo(s: Engine) {
    s.queued == s.done + From(s.queue, Current(s))
  }

  ghost predicate Inv(s: Engine) {
    Good(s) && (forall p :: 0 <= p < |s.heap| ==> Account(s, p)) && Fifo(s)
  }

  lemma {:induction false} FromSnoc<T>(xs: seq<T>, x: T, i: nat)
    requires i <= |xs|
    ensures From(xs + [x], i) == From(xs, i) + [x]
    decreases |xs| - i
  {
    if i < |xs| {
      FromSnoc(xs, x, i + 1);
    } else {
      assert From(xs + [x], i + 1) == [];
    }
  }

  lemma {:induction false} FromStart<T>(xs: seq<T>, i: nat)
    requires i <= |xs|
    ensures From(xs, i) == xs[i..]
    decreases |xs| - i
  {
    if i < |xs| {
      FromStart(xs, i + 1);
    }
  }

  lemma {:induction false} FlatSnoc(queue: seq<Job>, job: Job, i: nat, p: PId, subs: seq<Sub>)
    requires i <= |queue|
    ensures Flat(queue + [job], i, p, subs) == Flat(queue, i, p, subs) + Load(job, p, subs)
    ensures PublishCount(queue + [job], i, p) == PublishCount(queue, i, p) + Publishes(job, p)
    decreases |queue| - i
  {
    hide Load, Publishes;
    if i < |queue| {
      FlatSnoc(queue, job, i + 1, p, subs);
    } else {
      assert Flat(queue + [job], i + 1, p, subs) == [] && PublishCount(queue + [job], i + 1, p) == 0;
    }
  }

  lemma {:induction false} FlatNone(queue: seq<Job>, i: nat, p: PId, subs: seq<Sub>)
    requires forall k :: i <= k < |queue| ==> queue[k].p != p
    ensures Flat(queue, i, p, subs) == [] && PublishCount(queue, i, p) == 0
    decreases |queue| - i
  {
    if i < |queue| {
      FlatNone(queue, i + 1, p, subs);
    }
  }

  /** Without a publish job among them the jobs do not depend on the subscriber array. */
  lemma {:induction false} FlatUnpublished(queue: seq<Job>, i: nat, p: PId, subs: seq<Sub>, subs': seq<Sub>)
    requires PublishCount(queue, i, p) == 0
    ensures Flat(queue, i, p, subs) == Flat(queue, i, p, subs')
    decreases |queue| - i
  {
    if i < |queue| {
      FlatUnpublished(queue, i + 1, p, subs, subs');
    }
  }

  // ---------- one promise changes ----------

  function Enqueued(queue: seq<Job>, job: Option<Job>): seq<Job> {
    match job
    case None => queue
    case Some(j) => queue + [j]
  }

  /** s' is s with promise p replaced (history only growing), perhaps one job queued, perhaps flush started. */
  ghost predicate Touches(s: Engine, s': Engine, p: PId, job: Option<Job>) {
    && p < |s.heap| == |s'.heap| && (forall r :: 0 <= r < |s.heap| && r != p ==> s'.heap[r] == s.heap[r])
    && s'.heap[p].kind == s.heap[p].kind
    && s'.queue == Enqueued(s.queue, job) && s'.queued == Enqueued(s.queued, job) && s'.done == s.done
    && s'.enums == s.enums && s'.regs == s.regs
    && s'.control == (if s.queue == [] && job.Some? then Flushing(0) else s.control)
    && (job.Some? ==> GoodJob(s', job.value) && job.value.p == p)
    && (s.heap[p].state != Pending ==>
          s'.heap[p].state == s.heap[p].state && s'.heap[p].result == s.heap[p].result
          && s'.heap[p].subscribers == s.heap[p].subscribers)
    && (forall sub :: sub in s.heap[p].history ==> sub in s'.heap[p].history)
  }

  lemma TouchedControl(s: Engine, s': Engine, p: PId, job: Option<Job>)
    requires GoodControl(s) && Touches(s, s', p, job)
    ensures GoodControl(s') && Start(s') == Start(s) <= |s.queue| && Current(s') == Current(s) <= |s.queue|
    ensures forall r :: BeingPublished(s'.control, r) == BeingPublished(s.control, r)
    ensures forall r, subs :: InProgress(s'.control, r, subs) == InProgress(s.control, r, subs)
  {
    match s.control {
      case Running(i, r, sub, from) =>
        assert s'.heap[r].state != Pending && s'.heap[r].subscribers == s.heap[r].subscribers;
        assert sub in s'.heap[r].history;
      case Publishing(i, r, j) =>
        assert s'.heap[r].subscribers == s.heap[r].subscribers;
      case _ =>
    }
  }

  /** What becomes of a promise that keeps its subscribers and whose state stays: at most one more job behind it. */
  lemma TouchedOutstanding(s: Engine, s': Engine, p: PId, job: Option<Job>, r: PId)
    requires GoodControl(s) && Touches(s, s', p, job) && r < |s.heap|
    ensures Publications(s', r) == Publications(s, r) + (if job.Some? then Publishes(job.value, r) else 0)
    ensures s'.heap[r].subscribers == s.heap[r].subscribers ==>
              Outstanding(s', r)
              == Outstanding(s, r) + (if job.Some? then Load(job.value, r, s.heap[r].subscribers) else [])
    ensures NoJobFor(s, r) && (job.Some? ==> job.value.p != r) ==> NoJobFor(s', r)
  {
    TouchedControl(s, s', p, job);
    var subs := s.heap[r].subscribers;
    assert InProgress(s'.control, r, subs) == InProgress(s.control, r, subs);
    assert BeingPublished(s'.control, r) == BeingPublished(s.control, r);
    assert s'.queue == Enqueued(s.queue, job) && |s'.heap| == |s.heap|;
    hide Touches, GoodControl, GoodJob, InProgress, BeingPublished, Load, Publishes, Start;
    if job.Some? {
      FlatSnoc(s.queue, job.value, Start(s), r, subs);
      Assoc(InProgress(s.control, r, subs), Flat(s.queue, Start(s), r, subs), Load(job.value, r, subs));
    } else {
      assert Outstanding(s, r) + [] == Outstanding(s, r);
    }
    hide Flat, PublishCount;
  }

  /** Everything but p is kept by such a change. */
  lemma TouchedOthers(s: Engine, s': Engine, p: PId, job: Option<Job>, r: PId)
    requires GoodControl(s) && Touches(s, s', p, job) && r < |s.heap| && r != p && Account(s, r)
    ensures r < |s'.heap| && Account(s', r)
  {
    TouchedOutstanding(s, s', p, job, r);
    assert s'.heap[r] == s.heap[r];
    assert job.Some? ==> Load(job.value, r, s.heap[r].subscribers) == [] && Publishes(job.value, r) == 0;
    assert [] + Outstanding(s, r) == Outstanding(s, r) + [];
    hide Touches, GoodControl, Outstanding, Publications, Balanced, NoJobFor;
  }

  lemma TouchedGood(s: Engine, s': Engine, p: PId, job: Option<Job>)
    requires Good(s) && Touches(s, s', p, job) && GoodPromise(s', p)
    ensures Good(s')
  {
    TouchedControl(s, s', p, job);
    forall r | 0 <= r < |s'.heap|
      ensures GoodPromise(s', r)
    {
      if r != p {
        assert GoodPromise(s, r);
        forall sub | sub in s'.heap[r].history
          ensures GoodSub(s', r, sub)
        {
          assert GoodSub(s, r, sub);
        }
      }
    }
    forall e | 0 <= e < |s'.enums|
      ensures GoodEnumerator(s', e)
    {
      assert GoodEnumerator(s, e);
    }
    forall k | Start(s') <= k < |s'.queue|
      ensures GoodJob(s', s'.queue[k])
    {
      if k < |s.queue| {
        assert s'.queue[k] == s.queue[k];
        assert GoodJob(s, s.queue[k]);
      }
    }
  }

  lemma TouchedFifo(s: Engine, s': Engine, p: PId, job: Option<Job>)
    requires GoodControl(s) && Touches(s, s', p, job) && Fifo(s)
    ensures Fifo(s')
  {
    TouchedControl(s, s', p, job);
    if job.Some? {
      FromSnoc(s.queue, job.value, Current(s));
    }
    hide GoodControl, GoodJob, Current, From;
  }

  lemma TouchedInv(s: Engine, s': Engine, p: PId, job: Option<Job>)
    requires Inv(s) && Touches(s, s', p, job) && GoodPromise(s', p) && Account(s', p)
    ensures Inv(s')
  {
    TouchedGood(s, s', p, job);
    TouchedFifo(s, s', p, job);
    assert |s'.heap| == |s.heap|;
    hide Touches, Account, Fifo;
    forall r | 0 <= r < |s'.heap|
      ensures Account(s', r)
    {
      if r != p {
        TouchedOthers(s, s', p, job, r);
      }
    }
  }

  /** Settling a pending promise: all its subscriptions move into the publish job. */
  lemma SettleInv(s: Engine, p: PId, state: State, value: Value, s': Engine, job: Option<Job>)
    requires Inv(s) && p < |s.heap| && s.heap[p].state == Pending && state != Pending
    requires state == Fulfilled ==> !value.Own?
    requires job.Some? ==> job.value.p == p && !job.value.InvokeThen?
    requires s' == if job.Some? then Asap(Settle(s, p, state, value), job.value) else Settle(s, p, state, value)
    requires job.None? ==> s.heap[p].subscribers == []
    ensures Inv(s')
  {
    assert Account(s, p);
    assert s'.heap[p] == s.heap[p].(state := state, result := value);
    assert Touches(s, s', p, job);
    assert GoodPromise(s', p) by {
      assert GoodPromise(s, p);
      forall sub | sub in s'.heap[p].history
        ensures GoodSub(s', p, sub)
      {
        assert GoodSub(s, p, sub);
      }
    }
    SettleAccount(s, s', p, job);
    TouchedInv(s, s', p, job);
  }

  lemma SettleAccount(s: Engine, s': Engine, p: PId, job: Option<Job>)
    requires GoodControl(s) && Touches(s, s', p, job) && Account(s, p) && s.heap[p].state == Pending
    requires s'.heap[p] == s.heap[p].(state := s'.heap[p].state, result := s'.heap[p].result)
    requires s'.heap[p].state != Pending
    requires job.Some? ==> !job.value.InvokeThen?
    requires job.None? ==> s.heap[p].subscribers == []
    ensures Account(s', p)
  {
    var subs := s.heap[p].subscribers;
    TouchedOutstanding(s, s', p, job, p);
    FlatNone(s.queue, Start(s), p, subs);
    assert !BeingPublished(s.control, p) && InProgress(s.control, p, subs) == [];
    assert Outstanding(s, p) == [] && Publications(s, p) == 0;
    assert job.Some? ==> Load(job.value, p, subs) == subs && Publishes(job.value, p) == 1;
    assert [] + subs == subs;
    hide Touches, GoodControl, Outstanding, Publications, NoJobFor, Balanced;
    BalancedNew(subs);
  }

  lemma FulfillInv(s: Engine, p: PId, value: Value)
    requires Inv(s) && p < |s.heap| && !value.Own?
    ensures Inv(Fulfill(s, p, value))
  {
    if s.heap[p].state == Pending {
      SettleInv(s, p, Fulfilled, value, Fulfill(s, p, value),
                if s.heap[p].subscribers != [] then Some(Publish(p)) else None);
    }
  }

  lemma RejectInv(s: Engine, p: PId, reason: Value)
    requires Inv(s) && p < |s.heap|
    ensures Inv(Reject(s, p, reason))
  {
    if s.heap[p].state == Pending {
      SettleInv(s, p, Rejected, reason, Reject(s, p, reason), Some(PublishRejection(p)));
    }
  }

  lemma SubscribeInv(s: Engine, parent: PId, sub: Sub)
    requires Inv(s) && parent < |s.heap| && s.heap[parent].state == Pending && GoodSub(s, parent, sub)
    ensures Inv(Subscribe(s, parent, sub))
  {
    var s' := Subscribe(s, parent, sub);
    assert Account(s, parent) && GoodPromise(s, parent);
    assert Touches(s, s', parent, None);
    forall x | x in s'.heap[parent].history
      ensures GoodSub(s', parent, x)
    {
      assert GoodSub(s, parent, x) || x == sub;
    }
    TouchedInv(s, s', parent, None);
  }

  /** The accounts look only at the promise itself and at the jobs. */
  lemma SameAccount(s: Engine, s': Engine, p: PId)
    requires p < |s.heap| && p < |s'.heap| && s'.heap[p] == s.heap[p]
    requires s'.queue == s.queue && s'.control == s.control
    ensures Account(s', p) == Account(s, p)
  {
    assert Outstanding(s', p) == Outstanding(s, p) && Publications(s', p) == Publications(s, p);
  }

  lemma MakeInv(s: Engine, kind: Kind)
    requires Inv(s)
    ensures Inv(MakePromise(s, kind))
  {
    var s' := MakePromise(s, kind);
    forall p | 0 <= p < |s'.heap|
      ensures GoodPromise(s', p) && Account(s', p)
    {
      if p < |s.heap| {
        assert GoodPromise(s, p);
        forall sub | sub in s'.heap[p].history
          ensures GoodSub(s', p, sub)
        {
          assert GoodSub(s, p, sub);
        }
        SameAccount(s, s', p);
      } else {
        forall k | Start(s') <= k < |s'.queue|
          ensures s'.queue[k].p != p
        {
          assert GoodJob(s, s.queue[k]);
        }
      }
    }
    forall e | 0 <= e < |s'.enums|
      ensures GoodEnumerator(s', e)
    {
      assert GoodEnumerator(s, e);
    }
    forall k | Start(s') <= k < |s'.queue|
      ensures GoodJob(s', s'.queue[k])
    {
      assert GoodJob(s, s.queue[k]);
    }
  }

  /** Numbering does not matter to the accounts. */
  lemma RegsInv(s: Engine, regs: nat)
    requires Inv(s)
    ensures Inv(s.(regs := regs))
  {
    var s' := s.(regs := regs);
    forall e | 0 <= e < |s'.enums|
      ensures GoodEnumerator(s', e)
    {
      assert GoodEnumerator(s, e);
    }
    SameHeapInv(s, s');
  }

  /** Neither do the enumerators, as long as their shape stays. */
  lemma SameHeapInv(s: Engine, s': Engine)
    requires Inv(s)
    requires s' == s.(regs := s'.regs, enums := s'.enums) && |s'.enums| >= |s.enums|
    requires forall e :: 0 <= e < |s'.enums| ==> GoodEnumerator(s', e)
    requires forall e :: 0 <= e < |s.enums| ==>
               |s'.enums[e].result| == |s.enums[e].result| && s'.enums[e].promise == s.enums[e].promise
    ensures Inv(s')
  {
    forall p | 0 <= p < |s'.heap|
      ensures GoodPromise(s', p) && Account(s', p)
    {
      assert GoodPromise(s, p) && Account(s, p);
      forall sub | sub in s'.heap[p].history
        ensures GoodSub(s', p, sub)
      {
        assert GoodSub(s, p, sub);
      }
      SameAccount(s, s', p);
    }
    forall k | Start(s') <= k < |s'.queue|
      ensures GoodJob(s', s'.queue[k])
    {
      assert GoodJob(s, s.queue[k]);
    }
  }

  lemma ResolveInv(s: Engine, p: PId, value: Value)
    requires Inv(s) && p < |s.heap| && KnownValue(s, value)
    requires !s.heap[p].kind.AllOf? && (s.heap[p].kind.Entry? ==> !value.Own?)
    ensures Inv(Resolve(s, p, value))
  {
    if value == Own(p) {
      RejectInv(s, p, SelfFulfillment);
    } else if value.Own? {
      var q := value.p;
      assert GoodPromise(s, q);
      match s.heap[q].state {
        case Fulfilled => FulfillInv(s, p, s.heap[q].result);
        case Rejected => RejectInv(s, p, s.heap[q].result);
        case Pending => SubscribeInv(s, q, Adopt(p));
      }
    } else {
      FulfillInv(s, p, value);
    }
  }

  /** then on a settled promise: the callback becomes a job of its own, behind everything already due. */
  lemma ThenSettledInv(s: Engine, parent: PId, sub: Sub)
    requires Inv(s) && parent < |s.heap| && s.heap[parent].state != Pending && sub.Then? && GoodSub(s, parent, sub)
    ensures var q := s.heap[parent];
            Inv(Asap(s.(heap := s.heap[parent := q.(history := q.history + [sub])]), InvokeThen(parent, sub)))
  {
    var q := s.heap[parent];
    var job := InvokeThen(parent, sub);
    var s' := Asap(s.(heap := s.heap[parent := q.(history := q.history + [sub])]), job);
    assert Account(s, parent) && GoodPromise(s, parent);
    assert Touches(s, s', parent, Some(job));
    forall x | x in s'.heap[parent].history
      ensures GoodSub(s', parent, x)
    {
      assert GoodSub(s, parent, x) || x == sub;
    }
    assert s'.heap[parent] == q.(history := q.history + [sub]);
    ThenSettledAccount(s, s', parent, job);
    TouchedInv(s, s', parent, Some(job));
  }

  lemma ThenSettledAccount(s: Engine, s': Engine, p: PId, job: Job)
    requires GoodControl(s) && Touches(s, s', p, Some(job)) && job.InvokeThen? && Account(s, p)
    requires s.heap[p].state != Pending && s'.heap[p] == s.heap[p].(history := s.heap[p].history + [job.sub])
    ensures Account(s', p)
  {
    TouchedOutstanding(s, s', p, Some(job), p);
    assert Load(job, p, s.heap[p].subscribers) == [job.sub] && Publishes(job, p) == 0;
    hide Touches, GoodControl, Outstanding, Publications, Balanced, NoJobFor;
    BalancedThen(s.heap[p].ran, Outstanding(s, p), s.heap[p].history, job.sub);
  }

  lemma ThenInv(s: Engine, parent: PId, onFulfilled: bool, onRejected: bool)
    requires Inv(s) && parent < |s.heap|
    ensures Inv(ThenCall(s, parent, onFulfilled, onRejected))
  {
    var sub := Then(s.regs, |s.heap|, onFulfilled, onRejected);
    MakeInv(s, Child);
    RegsInv(MakePromise(s, Child), s.regs + 1);
    var s1 := MakePromise(s, Child).(regs := s.regs + 1);
    assert GoodSub(s1, parent, sub);
    if s.heap[parent].state != Pending {
      ThenSettledInv(s1, parent, sub);
    } else {
      SubscribeInv(s1, parent, sub);
    }
  }

  // ---------- moves ----------

  datatype Move = UserNew
                | UserResolve(p: PId, value: Value)
                | UserReject(p: PId, value: Value)
                | UserThen(p: PId, onFulfilled: bool, onRejected: bool)
                | UserAll(entries: seq<Value>)
                | UserReturns(completion: Completion)
                | FlushTurn
                | PublishTurn

  /** User code has control when flush is not running, and inside a callback. It can resolve what it constructed and
      call then on what it was given; the promises Promise.all makes for its entries are never handed out. */
  ghost predicate Enabled(s: Engine, m: Move) {
    match m
    case UserNew => UserTurn(s)
    case UserResolve(p, v) => UserTurn(s) && p < |s.heap| && s.heap[p].kind == Constructed && KnownValue(s, v)
    case UserReject(p, v) => UserTurn(s) && p < |s.heap| && s.heap[p].kind == Constructed
    case UserThen(p, _, _) => UserTurn(s) && p < |s.heap| && !s.heap[p].kind.Entry?
    case UserAll(entries) => UserTurn(s) && forall v :: v in entries ==> KnownValue(s, v)
    case UserReturns(c) => s.control.Running? && (c.Return? ==> KnownValue(s, c.value))
    case FlushTurn => s.control.Flushing?
    case PublishTurn => s.control.Publishing?
  }

  predicate UserTurn(s: Engine) { s.control.Idle? || s.control.Running? }

  /** The callback for p's fate is called. */
  function Enter(s: Engine, i: nat, p: PId, sub: Sub, from: Option<nat>): Engine
    requires p < |s.heap| && sub.Then?
  {
    var q := s.heap[p];
    var call := Call(p, sub.reg, if q.state == Fulfilled then OnFulfilled else OnRejected, q.result);
    s.(control := Running(i, p, sub, from), calls := s.calls + [call])
  }

  predicate CanPerform(s: Engine, sub: Sub, state: State, value: Value) {
    match sub
    case Then(_, child, _, _) => child < |s.heap|
    case Adopt(t) => t < |s.heap| && (state == Fulfilled ==> KnownValue(s, value))
    case AllEntry(e, k) => e < |s.enums| && k < |s.enums[e].result| && s.enums[e].promise < |s.heap|
  }

  /** What a subscription does that needs no user code. */
  function Performed(s: Engine, sub: Sub, state: State, value: Value): Engine
    requires CanPerform(s, sub, state, value)
  {
    match sub
    case Then(_, child, _, _) => PassOn(s, state, child, value)
    case Adopt(t) => if state == Fulfilled then Resolve(s, t, value) else Reject(s, t, value)
    case AllEntry(e, k) => SettledAt(s, e, k, state, value)
  }

  /** publish or flush comes to subscription sub of p: call the handler, or do what needs no user code. */
  function Handle(s: Engine, i: nat, p: PId, sub: Sub, from: Option<nat>): Engine
    requires Good(s) && i < |s.queue| && p < |s.heap| && sub in s.heap[p].history
    requires s.heap[p].state != Pending
  {
    var state, value := s.heap[p].state, s.heap[p].result;
    var s1 := Log(s, p, sub);
    assert GoodPromise(s, p) && GoodSub(s, p, sub);
    if Handler(sub, state) then Enter(s1, i, p, sub, from)
    else Performed(Advance(s1, i, p, from), sub, state, value)
  }

  function Next(s: Engine, m: Move): Engine
    requires Good(s) && Enabled(s, m)
  {
    match m
    case UserNew => MakePromise(s, Constructed)
    case UserResolve(p, v) => Resolve(s, p, v)
    case UserReject(p, v) => Reject(s, p, v)
    case UserThen(p, onFulfilled, onRejected) => ThenCall(s, p, onFulfilled, onRejected)
    case UserAll(entries) => All(s, entries)
    case UserReturns(c) =>
      var Running(i, p, sub, from) := s.control;
      assert GoodPromise(s, p) && GoodSub(s, p, sub);
      Complete(Advance(s, i, p, from), sub.child, c)
    case FlushTurn =>
      var i := s.control.i;
      if i == |s.queue| then s.(queue := [], control := Idle)
      else
        var job := s.queue[i];
        assert GoodJob(s, job);
        if job.InvokeThen? then Handle(s, i, job.p, job.sub, None)
        else if s.heap[job.p].subscribers == [] then s.(control := Flushing(i + 1), done := s.done + [job])
        else s.(control := Publishing(i, job.p, 0))
    case PublishTurn =>
      var Publishing(i, p, j) := s.control;
      assert GoodPromise(s, p);
      if j == |s.heap[p].subscribers| then
        s.(heap := s.heap[p := s.heap[p].(subscribers := [])], control := Flushing(i + 1), done := s.done + [s.queue[i]])
      else Handle(s, i, p, s.heap[p].subscribers[j], Some(j))
  }

  // ---------- every move keeps the accounts ----------

  /** The subscription flush or publish has come to, and the two ways on: past it, or into its handler. */
  ghost predicate AtSub(s: Engine, i: nat, p: PId, sub: Sub, from: Option<nat>) {
    && p < |s.heap| && i < |s.queue|
    && match from
       case Some(j) =>
         s.control == Publishing(i, p, j) && j < |s.heap[p].subscribers| && s.heap[p].subscribers[j] == sub
       case None => s.control == Flushing(i) && s.queue[i] == InvokeThen(p, sub)
  }

  ghost predicate Logged(s: Engine, i: nat, p: PId, sub: Sub, from: Option<nat>, s': Engine) {
    && AtSub(s, i, p, sub, from)
    && (s' == Advance(Log(s, p, sub), i, p, from)
        || (sub.Then? && s' == Enter(Log(s, p, sub), i, p, sub, from)))
  }

  lemma AtSubGood(s: Engine, i: nat, p: PId, sub: Sub, from: Option<nat>)
    requires Good(s) && AtSub(s, i, p, sub, from)
    ensures s.heap[p].state != Pending && sub in s.heap[p].history
  {
    assert GoodPromise(s, p);
    if from.None? {
      assert GoodJob(s, s.queue[i]);
    }
  }

  lemma LoggedInPublish(s: Engine, i: nat, p: PId, sub: Sub, j: nat, s': Engine, r: PId)
    requires GoodControl(s) && Logged(s, i, p, sub, Some(j), s') && r < |s.heap|
    ensures Outstanding(s, r) == (if r == p then [sub] else []) + Outstanding(s', r)
    ensures Publications(s, r) == Publications(s', r)
    ensures NoJobFor(s, r) ==> NoJobFor(s', r)
  {
    var subs := s.heap[r].subscribers;
    assert Start(s') == Start(s);
    assert r == p ==> From(subs, j) == [sub] + From(subs, j + 1);
    Assoc(if r == p then [sub] else [], InProgress(s'.control, r, subs), Flat(s.queue, Start(s), r, subs));
    assert r != p ==> [] + InProgress(s'.control, r, subs) == InProgress(s'.control, r, subs);
    hide From, Flat, PublishCount, GoodControl, Load, Publishes;
  }

  lemma LoggedInFlush(s: Engine, i: nat, p: PId, sub: Sub, s': Engine, r: PId)
    requires GoodControl(s) && Logged(s, i, p, sub, None, s') && r < |s.heap|
    ensures Outstanding(s, r) == (if r == p then [sub] else []) + Outstanding(s', r)
    ensures Publications(s, r) == Publications(s', r)
    ensures NoJobFor(s, r) ==> NoJobFor(s', r)
  {
    var subs := s.heap[r].subscribers;
    assert Start(s') == Start(s) + 1;
    JobStep(s, i, r, subs);
    assert Load(s.queue[i], r, subs) == if r == p then [sub] else [];
    assert [] + Flat(s.queue, i, r, subs) == Flat(s.queue, i, r, subs);
    assert [] + Flat(s.queue, i + 1, r, subs) == Flat(s.queue, i + 1, r, subs);
    hide From, Flat, PublishCount, GoodControl, Load, Publishes;
  }

  lemma LoggedOutstanding(s: Engine, i: nat, p: PId, sub: Sub, from: Option<nat>, s': Engine, r: PId)
    requires GoodControl(s) && Logged(s, i, p, sub, from, s') && r < |s.heap|
    ensures Outstanding(s, r) == (if r == p then [sub] else []) + Outstanding(s', r)
    ensures Publications(s, r) == Publications(s', r)
    ensures NoJobFor(s, r) ==> NoJobFor(s', r)
  {
    hide Logged, GoodControl, Outstanding, Publications, NoJobFor;
    match from {
      case Some(j) => LoggedInPublish(s, i, p, sub, j, s', r);
      case None => LoggedInFlush(s, i, p, sub, s', r);
    }
  }

  lemma LoggedAccount(s: Engine, i: nat, p: PId, sub: Sub, from: Option<nat>, s': Engine)
    requires GoodControl(s) && Logged(s, i, p, sub, from, s') && Account(s, p) && s.heap[p].state != Pending
    ensures Account(s', p)
  {
    LoggedOutstanding(s, i, p, sub, from, s', p);
    var q := s.heap[p];
    var r := Ran(sub, q.state, q.result);
    assert s'.heap[p] == q.(ran := q.ran + [r]);
    hide Logged, Log, Enter, Advance, GoodControl, Outstanding, Publications, NoJobFor, Balanced;
    BalancedRun(q.ran, r, Outstanding(s', p), q.history);
  }

  /** Well-formedness only looks at who refers to whom. */
  lemma GoodFrame(s: Engine, s': Engine)
    requires Good(s) && SameShape(s, s') && s'.enums == s.enums
    requires forall r :: 0 <= r < |s.heap| ==>
               && s'.heap[r].history == s.heap[r].history && s'.heap[r].state == s.heap[r].state
               && s'.heap[r].result == s.heap[r].result
               && (s'.heap[r].subscribers == s.heap[r].subscribers || s'.heap[r].subscribers == [])
    requires GoodControl(s') && s'.queue == s.queue && Start(s') >= Start(s)
    ensures Good(s')
  {
    forall r | 0 <= r < |s'.heap|
      ensures GoodPromise(s', r)
    {
      assert GoodPromise(s, r);
      forall x | x in s'.heap[r].history
        ensures GoodSub(s', r, x)
      {
        assert GoodSub(s, r, x);
      }
    }
    forall e | 0 <= e < |s'.enums|
      ensures GoodEnumerator(s', e)
    {
      assert GoodEnumerator(s, e);
    }
    forall k | Start(s') <= k < |s'.queue|
      ensures GoodJob(s', s'.queue[k])
    {
      assert GoodJob(s, s.queue[k]);
    }
  }

  lemma LoggedGood(s: Engine, i: nat, p: PId, sub: Sub, from: Option<nat>, s': Engine)
    requires Good(s) && Logged(s, i, p, sub, from, s')
    ensures Good(s')
    ensures Fifo(s) ==> Fifo(s')
  {
    AtSubGood(s, i, p, sub, from);
    assert GoodControl(s');
    assert From(s.queue, i) == [s.queue[i]] + From(s.queue, i + 1);
    hide From, GoodPromise, GoodEnumerator, GoodJob;
    GoodFrame(s, s');
  }

  lemma LoggedOther(s: Engine, i: nat, p: PId, sub: Sub, from: Option<nat>, s': Engine, r: PId)
    requires GoodControl(s) && Logged(s, i, p, sub, from, s') && r < |s.heap| && r != p && Account(s, r)
    ensures r < |s'.heap| && Account(s', r)
  {
    LoggedOutstanding(s, i, p, sub, from, s', r);
    assert [] + Outstanding(s', r) == Outstanding(s', r);
    assert s'.heap[r] == s.heap[r];
    hide GoodControl, Logged, Outstanding, Publications, NoJobFor, Balanced;
  }

  lemma LoggedInv(s: Engine, i: nat, p: PId, sub: Sub, from: Option<nat>, s': Engine)
    requires Inv(s) && Logged(s, i, p, sub, from, s')
    ensures Inv(s')
  {
    AtSubGood(s, i, p, sub, from);
    LoggedGood(s, i, p, sub, from, s');
    assert Account(s, p);
    LoggedAccount(s, i, p, sub, from, s');
    assert |s'.heap| == |s.heap| && forall r :: 0 <= r < |s.heap| && r != p ==> s'.heap[r] == s.heap[r];
    hide Good, GoodControl, Fifo, Logged, Account;
    forall r | 0 <= r < |s'.heap|
      ensures Account(s', r)
    {
      if r != p {
        LoggedOther(s, i, p, sub, from, s', r);
      }
    }
  }

  /** Moves of the control alone: no promise changes but that publish empties the array it has finished. */
  lemma ControlInv(s: Engine, s': Engine, p: PId)
    requires Inv(s) && Good(s') && Fifo(s') && p < |s.heap| == |s'.heap| && Account(s', p)
    requires forall r :: 0 <= r < |s.heap| && r != p ==>
               && s'.heap[r] == s.heap[r] && Outstanding(s', r) == Outstanding(s, r)
               && Publications(s', r) <= Publications(s, r) && (NoJobFor(s, r) ==> NoJobFor(s', r))
    ensures Inv(s')
  {
    hide Good, Fifo, Outstanding, Publications, NoJobFor, Balanced;
    forall r | 0 <= r < |s'.heap|
      ensures Account(s', r)
    {
      assert Account(s, r);
    }
  }

  /** flush comes back to asap: the queue is empty again. */
  lemma FlushEndInv(s: Engine)
    requires Inv(s) && s.control == Flushing(|s.queue|)
    ensures Inv(s.(queue := [], control := Idle))
  {
    var s' := s.(queue := [], control := Idle);
    forall r | 0 <= r < |s'.heap|
      ensures Account(s', r) && GoodPromise(s', r)
    {
      assert Account(s, r) && GoodPromise(s, r);
      assert Outstanding(s, r) == Outstanding(s', r) == [];
      forall x | x in s'.heap[r].history
        ensures GoodSub(s', r, x)
      {
        assert GoodSub(s, r, x);
      }
    }
    forall e | 0 <= e < |s'.enums|
      ensures GoodEnumerator(s', e)
    {
      assert GoodEnumerator(s, e);
    }
  }

  /** One job further: what is in front of it stays as it is. */
  lemma JobStep(s: Engine, i: nat, r: PId, subs: seq<Sub>)
    requires i < |s.queue|
    ensures Flat(s.queue, i, r, subs) == Load(s.queue[i], r, subs) + Flat(s.queue, i + 1, r, subs)
    ensures PublishCount(s.queue, i, r) == Publishes(s.queue[i], r) + PublishCount(s.queue, i + 1, r)
    ensures From(s.queue, i) == [s.queue[i]] + From(s.queue, i + 1)
  {}

  lemma FlushSkipInv(s: Engine, i: nat)
    requires Inv(s) && s.control == Flushing(i) && i < |s.queue| && !s.queue[i].InvokeThen?
    requires s.queue[i].p < |s.heap| && s.heap[s.queue[i].p].subscribers == []
    ensures Inv(s.(control := Flushing(i + 1), done := s.done + [s.queue[i]]))
  {
    var job, s' := s.queue[i], s.(control := Flushing(i + 1), done := s.done + [s.queue[i]]);
    hide GoodPromise, GoodSub, GoodEnumerator, GoodJobs, GoodJob;
    assert GoodControl(s');
    GoodFrame(s, s');
    hide Good, GoodControl, Flat, PublishCount, From;
    forall r | 0 <= r < |s.heap|
      ensures Outstanding(s', r) == Outstanding(s, r) && Publications(s', r) <= Publications(s, r)
      ensures NoJobFor(s, r) ==> NoJobFor(s', r)
    {
      JobStep(s, i, r, s.heap[r].subscribers);
      assert Load(job, r, s.heap[r].subscribers) == [];
    }
    JobStep(s, i, job.p, []);
    assert Account(s, job.p);
    hide Outstanding, Publications, NoJobFor;
    assert Account(s', job.p);
    ControlInv(s, s', job.p);
  }

  lemma FlushPublishInv(s: Engine, i: nat)
    requires Inv(s) && s.control == Flushing(i) && i < |s.queue| && !s.queue[i].InvokeThen?
    requires s.queue[i].p < |s.heap|
    ensures Inv(s.(control := Publishing(i, s.queue[i].p, 0)))
  {
    var job := s.queue[i];
    var p, s' := job.p, s.(control := Publishing(i, job.p, 0));
    assert GoodJob(s, job);
    GoodFrame(s, s');
    hide Good, GoodControl, GoodJob, Flat, PublishCount, From;
    forall r | 0 <= r < |s.heap|
      ensures Outstanding(s', r) == Outstanding(s, r) && Publications(s', r) <= Publications(s, r)
      ensures NoJobFor(s, r) ==> NoJobFor(s', r)
    {
      var subs := s.heap[r].subscribers;
      JobStep(s, i, r, subs);
      FromStart(subs, 0);
      assert subs[0..] == subs;
    }
    assert Account(s, p);
    hide Outstanding, Publications, NoJobFor;
    assert Account(s', p);
    ControlInv(s, s', p);
  }

  lemma PublishEndInv(s: Engine, i: nat, p: PId)
    requires Inv(s) && p < |s.heap| && s.control == Publishing(i, p, |s.heap[p].subscribers|)
    ensures i < |s.queue|
    ensures Inv(s.(heap := s.heap[p := s.heap[p].(subscribers := [])], control := Flushing(i + 1),
                   done := s.done + [s.queue[i]]))
  {
    var s' := s.(heap := s.heap[p := s.heap[p].(subscribers := [])], control := Flushing(i + 1),
                 done := s.done + [s.queue[i]]);
    hide GoodPromise, GoodSub, GoodEnumerator, GoodJobs, GoodJob;
    assert GoodControl(s');
    GoodFrame(s, s');
    JobStep(s, i, p, []);
    assert Fifo(s');
    assert Account(s, p);
    assert forall r :: 0 <= r < |s.heap| && r != p ==> s'.heap[r] == s.heap[r];
    hide Good, GoodControl, From;
    FlatUnpublished(s.queue, i + 1, p, s.heap[p].subscribers, []);
    assert From(s.heap[p].subscribers, |s.heap[p].subscribers|) == [] by { FromStart(s.heap[p].subscribers, |s.heap[p].subscribers|); }
    hide Flat, PublishCount;
    assert Outstanding(s', p) == Outstanding(s, p) && Publications(s', p) <= Publications(s, p);
    forall r | 0 <= r < |s.heap| && r != p
      ensures Outstanding(s', r) == Outstanding(s, r) && Publications(s', r) <= Publications(s, r)
      ensures NoJobFor(s, r) ==> NoJobFor(s', r)
    {}
    hide Outstanding, Publications, NoJobFor, Balanced;
    assert Account(s', p);
    ControlInv(s, s', p);
  }

  lemma ReturnGood(s: Engine, i: nat, p: PId, sub: Sub, from: Option<nat>)
    requires Inv(s) && s.control == Running(i, p, sub, from)
    ensures i < |s.queue| && Good(Advance(s, i, p, from)) && Fifo(Advance(s, i, p, from))
  {
    var s' := Advance(s, i, p, from);
    hide GoodPromise, GoodSub, GoodEnumerator, GoodJobs, GoodJob;
    assert GoodControl(s');
    GoodFrame(s, s');
    JobStep(s, i, p, []);
    assert Fifo(s');
  }

  lemma ReturnProgress(s: Engine, i: nat, p: PId, sub: Sub, from: Option<nat>)
    requires i < |s.queue| && s.control == Running(i, p, sub, from)
    ensures var s' := Advance(s, i, p, from);
            && Start(s') == Start(s) && (forall r :: BeingPublished(s'.control, r) == BeingPublished(s.control, r))
            && (forall r, subs :: InProgress(s'.control, r, subs) == InProgress(s.control, r, subs))
  {
    hide From;
  }

  /** A handler came back. */
  lemma ReturnInv(s: Engine, i: nat, p: PId, sub: Sub, from: Option<nat>)
    requires Inv(s) && s.control == Running(i, p, sub, from)
    ensures i < |s.queue| && Inv(Advance(s, i, p, from))
  {
    ReturnGood(s, i, p, sub, from);
    ReturnProgress(s, i, p, sub, from);
    var s' := Advance(s, i, p, from);
    assert p < |s.heap| && Account(s, p) && GoodControl(s) && GoodControl(s');
    hide Good, GoodControl, From, Flat, PublishCount, InProgress, BeingPublished, Start, Fifo;
    forall r | 0 <= r < |s.heap|
      ensures Outstanding(s', r) == Outstanding(s, r) && Publications(s', r) == Publications(s, r)
      ensures NoJobFor(s, r) ==> NoJobFor(s', r)
    {}
    hide Outstanding, Publications, NoJobFor, Balanced;
    assert Account(s', p);
    ControlInv(s, s', p);
  }

  lemma SettledAtInv(s: Engine, e: nat, i: nat, state: State, value: Value)
    requires Inv(s) && GoodIndex(s, e, i)
    ensures Inv(SettledAt(s, e, i, state, value))
  {
    hide Reject, Fulfill;
    var en := s.enums[e];
    var p := en.promise;
    var s1 := s;
    if s.heap[p].state == Pending {
      var en' := if state == Rejected then en.(remaining := en.remaining - 1)
                 else en.(remaining := en.remaining - 1, result := en.result[i := Some(value)]);
      s1 := s.(enums := s.enums[e := en']);
      EnumsInv(s, s1, e);
      hide Inv;
      if state == Rejected {
        RejectInv(s1, p, value);
        s1 := Reject(s1, p, value);
      }
    }
    hide Inv;
    if s1.enums[e].remaining == 0 {
      FulfillInv(s1, p, AllResult(s1.enums[e].result));
    }
  }

  lemma EachEntryInv(s: Engine, e: nat, i: nat)
    requires Inv(s) && e < |s.enums| && i < |s.enums[e].entries|
    requires |s.enums[e].result| == |s.enums[e].entries| == |s.enums[e].sources| && s.enums[e].promise < |s.heap|
    requires KnownValue(s, s.enums[e].entries[i])
    ensures Inv(EachEntry(s, e, i))
  {
    var en := s.enums[e];
    match en.entries[i] {
      case Own(q) =>
        if s.heap[q].state != Pending {
          SettledAtInv(s, e, i, s.heap[q].state, s.heap[q].result);
        } else {
          var t := |s.heap|;
          MakeInv(s, Entry(q, e, i));
          var s1 := MakePromise(s, Entry(q, e, i));
          SubscribeInv(s1, q, Adopt(t));
          var s2 := Subscribe(s1, q, Adopt(t));
          SubscribeInv(s2, t, AllEntry(e, i));
          var s3 := Subscribe(s2, t, AllEntry(e, i));
          var s4 := s3.(enums := s.enums[e := en.(sources := en.sources[i := Some(t)])]);
          EnumsInv(s3, s4, e);
        }
      case entry =>
        EnumsInv(s, EachEntry(s, e, i), e);
    }
  }

  lemma EnumsInv(s: Engine, s': Engine, e: nat)
    requires Inv(s) && e < |s.enums| == |s'.enums| && s' == s.(enums := s.enums[e := s'.enums[e]])
    requires var en, en' := s.enums[e], s'.enums[e];
             en'.promise == en.promise && en'.entries == en.entries && |en'.result| == |en.result|
             && |en'.sources| == |en.sources|
    ensures Inv(s')
  {
    forall k | 0 <= k < |s'.enums|
      ensures GoodEnumerator(s', k)
    {
      assert GoodEnumerator(s, k) && GoodEnumerator(s, e);
    }
    SameHeapInv(s, s');
  }

  lemma EachEntryFromInv(s: Engine, e: nat, i: nat)
    requires Inv(s) && e < |s.enums| && i <= |s.enums[e].entries|
    requires |s.enums[e].result| == |s.enums[e].entries| == |s.enums[e].sources| && s.enums[e].promise < |s.heap|
    requires forall v :: v in s.enums[e].entries ==> KnownValue(s, v)
    ensures Inv(EachEntryFrom(s, e, i))
    decreases |s.enums[e].entries| - i
  {
    hide Inv, EachEntry, KnownValue;
    if i < |s.enums[e].entries| {
      assert s.enums[e].entries[i] in s.enums[e].entries;
      EachEntryInv(s, e, i);
      EachEntryShape(s, e, i);
      EachEntryFromInv(EachEntry(s, e, i), e, i + 1);
    }
  }

  lemma AllInv(s: Engine, entries: seq<Value>)
    requires Inv(s) && forall v :: v in entries ==> KnownValue(s, v)
    ensures Inv(All(s, entries))
  {
    var e, p := |s.enums|, |s.heap|;
    var en := Enumerator(p, entries, |entries|, Nones(|entries|), Nones(|entries|));
    MakeInv(s, AllOf(e));
    var s0 := MakePromise(s, AllOf(e));
    var s1 := s0.(enums := s.enums + [en]);
    assert forall v :: v in entries ==> KnownValue(s, v) && KnownValue(s1, v);
    forall k | 0 <= k < |s1.enums|
      ensures GoodEnumerator(s1, k)
    {
      if k < |s.enums| {
        assert GoodEnumerator(s0, k);
      }
    }
    SameHeapInv(s0, s1);
    if entries == [] {
      FulfillInv(s1, p, AllResult([]));
    } else {
      EachEntryFromInv(s1, e, 0);
      AllShape(s1, e, 0);
      var s2 := EachEntryFrom(s1, e, 0);
      if s2.enums[e].remaining == 0 {
        FulfillInv(s2, p, AllResult(s2.enums[e].result));
      }
    }
  }

  lemma CompleteInv(s: Engine, child: PId, c: Completion)
    requires Inv(s) && child < |s.heap| && s.heap[child].kind == Child && (c.Return? ==> KnownValue(s, c.value))
    ensures Inv(Complete(s, child, c))
  {
    if c == Return(Own(child)) {
      RejectInv(s, child, ReturnedOwn);
    } else if s.heap[child].state == Pending {
      match c {
        case Return(v) => ResolveInv(s, child, v);
        case Throw(x) => RejectInv(s, child, x);
      }
    }
  }

  lemma HandleInv(s: Engine, i: nat, p: PId, sub: Sub, from: Option<nat>)
    requires Inv(s) && AtSub(s, i, p, sub, from)
    ensures sub in s.heap[p].history && s.heap[p].state != Pending
    ensures Inv(Handle(s, i, p, sub, from))
  {
    AtSubGood(s, i, p, sub, from);
    LoggedInv(s, i, p, sub, from, Advance(Log(s, p, sub), i, p, from));
    if sub.Then? {
      LoggedInv(s, i, p, sub, from, Enter(Log(s, p, sub), i, p, sub, from));
    }
    assert GoodPromise(s, p) && GoodSub(s, p, sub);
    var state, value := s.heap[p].state, s.heap[p].result;
    if !Handler(sub, state) {
      var s2 := Advance(Log(s, p, sub), i, p, from);
      match sub {
        case Then(_, child, _, _) =>
          if s2.heap[child].state == Pending {
            if state == Fulfilled {
              FulfillInv(s2, child, value);
            } else {
              RejectInv(s2, child, value);
            }
          }
        case Adopt(t) =>
          if state == Fulfilled {
            ResolveInv(s2, t, value);
          } else {
            RejectInv(s2, t, value);
          }
        case AllEntry(e, k) =>
          SettledAtInv(s2, e, k, state, value);
      }
    }
  }

  /** Every move of the engine and of its users keeps every account. */
  lemma NextInv(s: Engine, m: Move)
    requires Inv(s) && Enabled(s, m)
    ensures Inv(Next(s, m))
  {
    match m {
      case UserNew => MakeInv(s, Constructed);
      case UserResolve(p, v) => ResolveInv(s, p, v);
      case UserReject(p, v) => RejectInv(s, p, v);
      case UserThen(p, f, r) => ThenInv(s, p, f, r);
      case UserAll(entries) => AllInv(s, entries);
      case UserReturns(c) => UserReturnsInv(s, c);
      case FlushTurn => FlushTurnInv(s);
      case PublishTurn => PublishTurnInv(s);
    }
  }

  lemma UserReturnsInv(s: Engine, c: Completion)
    requires Inv(s) && Enabled(s, UserReturns(c))
    ensures Inv(Next(s, UserReturns(c)))
  {
    var Running(i, p, sub, from) := s.control;
    ReturnInv(s, i, p, sub, from);
    assert GoodPromise(s, p) && GoodSub(s, p, sub);
    CompleteInv(Advance(s, i, p, from), sub.child, c);
  }

  lemma FlushTurnInv(s: Engine)
    requires Inv(s) && Enabled(s, FlushTurn)
    ensures Inv(Next(s, FlushTurn))
  {
    var i := s.control.i;
    if i == |s.queue| {
      FlushEndInv(s);
    } else {
      var job := s.queue[i];
      assert GoodJob(s, job);
      if job.InvokeThen? {
        HandleInv(s, i, job.p, job.sub, None);
      } else if s.heap[job.p].subscribers == [] {
        FlushSkipInv(s, i);
      } else {
        FlushPublishInv(s, i);
      }
    }
  }

  lemma PublishTurnInv(s: Engine)
    requires Inv(s) && Enabled(s, PublishTurn)
    ensures Inv(Next(s, PublishTurn))
  {
    var Publishing(i, p, j) := s.control;
    assert GoodPromise(s, p);
    if j == |s.heap[p].subscribers| {
      PublishEndInv(s, i, p);
    } else {
      HandleInv(s, i, p, s.heap[p].subscribers[j], Some(j));
    }
  }
}
