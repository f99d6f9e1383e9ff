/** What check does for the clients of its snapshot: each free one gets one job while there is room, and nobody else does. */
module PollerTicks {
  import opened Common
  import opened Poller

  // ---------- the queues ----------

  ghost predicate Bounded(s: System) { |s.pollQ| <= 4096 && |s.pushQ| <= 4096 }

  /** What the other parts can do to check, the queues and the slots: take the first job, push a job while there is room,
      give a slot back. */
  ghost predicate OutsideCheck(s: System, s': System) {
    && s'.ticker == s.ticker && s'.inflight <= s.inflight
    && (s'.pollQ == s.pollQ || (s.pollQ != [] && s'.pollQ == s.pollQ[1..]))
    && (|s'.pushQ| <= |s.pushQ| || |s'.pushQ| <= 4096)
    && (PollQueueClosed(s) ==> PollQueueClosed(s'))
  }

  lemma WorkOutside(s: System, w: nat, a: Action)
    requires WorkEnabled(s, w, a)
    ensures OutsideCheck(s, WorkNext(s, w, a))
  {
    SharedFrame(s, w, a);
    var s1 := Shared(s, w, a);
    assert a.SendPush? ==> s1.pushQ == s.pushQ || |s1.pushQ| <= 4096;
    hide Shared, NextPc;
  }

  lemma PushOutside(s: System, p: nat, y: PushStep)
    requires PushEnabled(s, p, y)
    ensures OutsideCheck(s, PushNext(s, p, y))
  {
    hide PushFieldNil, PushQueueClosed;
  }

  /** A step of another part than check. */
  lemma OthersStep(s: System, t: Step)
    requires Enabled(s, t) && !t.Check?
    ensures OutsideCheck(s, Next(s, t))
  {
    hide PushNext, PushEnabled, WorkNext, WorkEnabled;
    match t {
      case Work(w, a) =>
        hide OutsideCheck;
        WorkOutside(s, w, a);
      case Push(p, y) =>
        hide OutsideCheck;
        PushOutside(s, p, y);
      case Stopping(x) =>
    }
  }

  lemma BoundedStep(s: System, t: Step)
    requires Enabled(s, t) && Bounded(s)
    ensures Bounded(Next(s, t))
  {
    if !t.Check? {
      OthersStep(s, t);
      hide Next, Enabled;
    }
  }

  lemma {:induction false} BoundedAlways(ss: seq<System>, ts: seq<Step>, i: nat)
    requires Execution(ss, ts) && i < |ss|
    ensures Bounded(ss[i])
  {
    hide Next, Enabled, Bounded;
    if i > 0 {
      StepAt(ss, ts, i - 1);
      BoundedAlways(ss, ts, i - 1);
      BoundedStep(ss[i - 1], ts[i - 1]);
    } else {
      NothingQueued(ss[0]);
    }
  }

  lemma NothingQueued(s: System)
    requires Init(s)
    ensures Bounded(s)
  {}

  /** A closed poll channel stays closed. */
  lemma ClosedStep(s: System, t: Step)
    requires Enabled(s, t) && PollQueueClosed(s)
    ensures PollQueueClosed(Next(s, t))
  {
    if !t.Check? {
      OthersStep(s, t);
      hide Next, Enabled;
    }
  }

  lemma {:induction false} ClosedStays(ss: seq<System>, ts: seq<Step>, i: nat, j: nat)
    requires Execution(ss, ts) && i <= j < |ss| && PollQueueClosed(ss[i])
    ensures PollQueueClosed(ss[j])
    decreases j
  {
    hide Next, Enabled, PollQueueClosed;
    if i < j {
      ClosedStays(ss, ts, i, j - 1);
      StepAt(ss, ts, j - 1);
      ClosedStep(ss[j - 1], ts[j - 1]);
    }
  }

  // ---------- what one step shows ----------

  /** What became of an entry of the snapshot. */
  datatype Fate = Busy(client: Client) | Queued(client: Client) | Full(client: Client)

  /** What can be seen of it between two states: its client was in flight at its turn; the queue grew by it; the queue was
      full and stayed as it was. */
  function Seen(s: System, t: Step, s': System): seq<Fate> {
    if t == Check(TickNext) && s.ticker.Walking? && s.ticker.k < |s.ticker.clients|
       && s.ticker.clients[s.ticker.k] in s.inflight then [Busy(s.ticker.clients[s.ticker.k])]
    else if t == Check(TickSend) && s.ticker.Claimed? && s'.pollQ == s.pollQ + [s.ticker.client] then
      [Queued(s.ticker.client)]
    else if t == Check(TickSend) && s.ticker.Claimed? && |s.pollQ| == 4096 && s'.pollQ == s.pollQ then
      [Full(s.ticker.client)]
    else []
  }

  /** What was seen from state i to state n. */
  function Fates(ss: seq<System>, ts: seq<Step>, i: nat, n: nat): seq<Fate>
    requires n < |ss| == |ts| + 1
    decreases n
  {
    if n <= i then [] else Fates(ss, ts, i, n - 1) + Seen(ss[n - 1], ts[n - 1], ss[n])
  }

  ghost predicate About(fates: seq<Fate>, cs: seq<Client>) {
    |fates| <= |cs| && forall k :: 0 <= k < |fates| ==> fates[k].client == cs[k]
  }

  /** How far check is with the snapshot cs, in fates. */
  ghost predicate Reached(t: Ticker, cs: seq<Client>, fates: seq<Fate>) {
    && About(fates, cs)
    && match t
       case Walking(clients, k) => clients == cs && k == |fates|
       case Claimed(c, clients, k) => clients == cs && k == |fates| + 1 <= |cs| && c == cs[|fates|]
       case Refused(_, clients, k) => clients == cs && k == |fates|
       case _ => false
  }

  lemma ReachedTick(s: System, t: TickStep, cs: seq<Client>, fates: seq<Fate>)
    requires TickEnabled(s, t) && !PollQueueClosed(s) && Bounded(s) && Reached(s.ticker, cs, fates)
    ensures var s' := TickNextState(s, t);
            if s'.ticker.Resting? then Seen(s, Check(t), s') == [] && |fates| == |cs|
            else Reached(s'.ticker, cs, fates + Seen(s, Check(t), s'))
  {
    hide DistinctClients, PollQueueClosed;
    match t {
      case TickNext =>
      case TickSend =>
      case _ =>
    }
  }

  lemma ReachedStep(s: System, t: Step, cs: seq<Client>, fates: seq<Fate>)
    requires Enabled(s, t) && !PollQueueClosed(s) && Bounded(s) && Reached(s.ticker, cs, fates)
    ensures var s' := Next(s, t);
            if s'.ticker.Resting? then Seen(s, t, s') == [] && |fates| == |cs|
            else Reached(s'.ticker, cs, fates + Seen(s, t, s'))
  {
    if t.Check? {
      ReachedTick(s, t.tick, cs, fates);
      hide TickNextState, TickEnabled, Seen, Reached, Bounded, PollQueueClosed;
    } else {
      OthersStep(s, t);
      hide Next, Enabled;
      assert fates + [] == fates;
    }
  }

  /** check runs from its snapshot, taken by step i, to state j, where it has just come to rest. */
  ghost predicate OneCheck(ss: seq<System>, ts: seq<Step>, i: nat, j: nat, cs: seq<Client>) {
    && Execution(ss, ts) && i < j < |ss| && ts[i] == Check(Snapshot(cs))
    && ss[j].ticker.Resting? && (forall n :: i < n < j ==> !ss[n].ticker.Resting?) && !PollQueueClosed(ss[j])
  }

  lemma {:induction false} ReachedUpTo(ss: seq<System>, ts: seq<Step>, i: nat, j: nat, cs: seq<Client>, n: nat)
    requires OneCheck(ss, ts, i, j, cs) && i < n < j
    ensures Reached(ss[n].ticker, cs, Fates(ss, ts, i + 1, n))
    decreases n
  {
    hide Next, Enabled, Seen, Reached, PollQueueClosed, Bounded;
    StepAt(ss, ts, n - 1);
    if n == i + 1 {
      SnapshotTaken(ss[i], cs);
    } else {
      ReachedUpTo(ss, ts, i, j, cs, n - 1);
      NotClosedYet(ss, ts, n - 1, j);
      BoundedAlways(ss, ts, n - 1);
      ReachedStep(ss[n - 1], ts[n - 1], cs, Fates(ss, ts, i + 1, n - 1));
    }
  }

  lemma NotClosedYet(ss: seq<System>, ts: seq<Step>, n: nat, j: nat)
    requires Execution(ss, ts) && n <= j < |ss| && !PollQueueClosed(ss[j])
    ensures !PollQueueClosed(ss[n])
  {
    if PollQueueClosed(ss[n]) {
      ClosedStays(ss, ts, n, j);
    }
  }

  lemma SnapshotTaken(s: System, cs: seq<Client>)
    requires Enabled(s, Check(Snapshot(cs)))
    ensures var s' := Next(s, Check(Snapshot(cs)));
            DistinctClients(cs) && Reached(s'.ticker, cs, []) && !s'.ticker.Resting? && s'.inflight == s.inflight
  {}

  /** NO CLIENT IS FORGOTTEN. If the poll channel is not closed before check ends, each entry of its snapshot, in order, was
      in flight at its turn, or was put into the queue, or found 4096 jobs there. */
  lemma EachEntryHasItsFate(ss: seq<System>, ts: seq<Step>, i: nat, j: nat, cs: seq<Client>)
    requires OneCheck(ss, ts, i, j, cs)
    ensures var fates := Fates(ss, ts, i + 1, j);
            |fates| == |cs| && forall k :: 0 <= k < |cs| ==> fates[k].client == cs[k]
  {
    hide Next, Enabled, Seen, PollQueueClosed, Bounded;
    StepAt(ss, ts, i);
    SnapshotTaken(ss[i], cs);
    assert j > i + 1;
    StepAt(ss, ts, j - 1);
    ReachedUpTo(ss, ts, i, j, cs, j - 1);
    NotClosedYet(ss, ts, j - 1, j);
    BoundedAlways(ss, ts, j - 1);
    ReachedStep(ss[j - 1], ts[j - 1], cs, Fates(ss, ts, i + 1, j - 1));
  }

  // ---------- jobs ----------

  /** How often the poll queue grew by a job for c. */
  function Enqueued(ss: seq<System>, i: nat, n: nat, c: Client): nat
    requires n < |ss|
    decreases n
  {
    if n <= i then 0
    else Enqueued(ss, i, n - 1, c) + (if ss[n].pollQ == ss[n - 1].pollQ + [c] then 1 else 0)
  }

  lemma GrowsTick(s: System, t: TickStep, c: Client)
    requires TickEnabled(s, t)
    ensures var s' := TickNextState(s, t);
            multiset(Seen(s, Check(t), s'))[Queued(c)] == if s'.pollQ == s.pollQ + [c] then 1 else 0
  {
    hide PollQueueClosed, DistinctClients;
    var s' := TickNextState(s, t);
    if t.TickSend? && s'.pollQ != s.pollQ {
      assert s'.pollQ == s.pollQ + [s.ticker.client] && s'.pollQ[|s.pollQ|] == s.ticker.client;
    }
    hide TickNextState;
  }

  lemma GrowsIff(s: System, t: Step, c: Client)
    requires Enabled(s, t)
    ensures var s' := Next(s, t);
            multiset(Seen(s, t, s'))[Queued(c)] == if s'.pollQ == s.pollQ + [c] then 1 else 0
  {
    if t.Check? {
      GrowsTick(s, t.tick, c);
      hide TickNextState, TickEnabled, Seen;
    } else {
      OthersStep(s, t);
      hide Next, Enabled;
    }
  }

  /** Nobody but check puts jobs into the queue. */
  lemma {:induction false} EnqueuedAreSeen(ss: seq<System>, ts: seq<Step>, i: nat, n: nat, c: Client)
    requires Execution(ss, ts) && n < |ss|
    ensures Enqueued(ss, i, n, c) == multiset(Fates(ss, ts, i, n))[Queued(c)]
    decreases n
  {
    hide Next, Enabled, Seen;
    if n > i {
      EnqueuedAreSeen(ss, ts, i, n - 1, c);
      StepAt(ss, ts, n - 1);
      GrowsIff(ss[n - 1], ts[n - 1], c);
    }
  }

  lemma {:induction false} CountAbout(fates: seq<Fate>, cs: seq<Client>, f: Fate)
    requires About(fates, cs) && DistinctClients(cs)
    ensures multiset(fates)[f] == if f in fates then 1 else 0
  {
    if fates != [] {
      var n := |fates| - 1;
      CountAbout(fates[..n], cs, f);
      assert fates == fates[..n] + [fates[n]];
    }
  }

  /** The client of entry k is free until its turn, and then it is claimed. */
  ghost predicate FreeUntilTurn(s: System, cs: seq<Client>, fates: seq<Fate>, k: nat)
    requires k < |cs|
  {
    && (|fates| <= k && !(s.ticker.Claimed? && |fates| == k) ==> cs[k] !in s.inflight)
    && (|fates| > k ==> !fates[k].Busy?)
  }

  lemma FreeStep(s: System, t: Step, cs: seq<Client>, fates: seq<Fate>, k: nat)
    requires Enabled(s, t) && !PollQueueClosed(s) && Bounded(s) && Reached(s.ticker, cs, fates) && DistinctClients(cs)
    requires k < |cs| && FreeUntilTurn(s, cs, fates, k)
    ensures FreeUntilTurn(Next(s, t), cs, fates + Seen(s, t, Next(s, t)), k)
  {
    if !t.Check? {
      OthersStep(s, t);
      hide Next, Enabled;
    }
  }

  lemma {:induction false} FreeUpTo(ss: seq<System>, ts: seq<Step>, i: nat, j: nat, cs: seq<Client>, n: nat, k: nat)
    requires OneCheck(ss, ts, i, j, cs) && i < n <= j && k < |cs| && cs[k] !in ss[i].inflight
    ensures FreeUntilTurn(ss[n], cs, Fates(ss, ts, i + 1, n), k)
    decreases n
  {
    hide Next, Enabled, Seen, Reached, PollQueueClosed, FreeUntilTurn, Bounded;
    StepAt(ss, ts, i);
    SnapshotTaken(ss[i], cs);
    if n == i + 1 {
      FreeAtFirst(ss[n], cs, k);
    } else {
      FreeUpTo(ss, ts, i, j, cs, n - 1, k);
      StepAt(ss, ts, n - 1);
      ReachedUpTo(ss, ts, i, j, cs, n - 1);
      NotClosedYet(ss, ts, n - 1, j);
      BoundedAlways(ss, ts, n - 1);
      FreeStep(ss[n - 1], ts[n - 1], cs, Fates(ss, ts, i + 1, n - 1), k);
    }
  }

  lemma FreeAtFirst(s: System, cs: seq<Client>, k: nat)
    requires k < |cs| && cs[k] !in s.inflight
    ensures FreeUntilTurn(s, cs, [], k)
  {}

  /** While there is room no entry finds the queue full. */
  lemma {:induction false} RoomForAll(ss: seq<System>, ts: seq<Step>, i: nat, n: nat)
    requires Execution(ss, ts) && n < |ss| && forall m :: i <= m <= n ==> |ss[m].pollQ| < 4096
    ensures forall f :: f in Fates(ss, ts, i, n) ==> !f.Full?
    decreases n
  {
    if n > i {
      RoomForAll(ss, ts, i, n - 1);
    }
  }

  /** ONE JOB PER FREE CLIENT AND TICK. If the poll channel is not closed before check ends: a client that is not in flight
      when the snapshot is taken gets exactly one job if it is in the snapshot and there is room all the time; whoever
      is not in the snapshot gets none; and nobody gets two. */
  lemma {:induction false} FreeClientsGetOneJob(ss: seq<System>, ts: seq<Step>, i: nat, j: nat, cs: seq<Client>, c: Client)
    requires OneCheck(ss, ts, i, j, cs)
    ensures Enqueued(ss, i + 1, j, c) <= if c in cs then 1 else 0
    ensures c in cs && c !in ss[i].inflight && (forall m :: i < m <= j ==> |ss[m].pollQ| < 4096) ==>
              Enqueued(ss, i + 1, j, c) == 1
  {
    hide Next, Enabled, Seen, PollQueueClosed, Fates;
    var fates := Fates(ss, ts, i + 1, j);
    EachEntryHasItsFate(ss, ts, i, j, cs);
    EnqueuedAreSeen(ss, ts, i + 1, j, c);
    hide Enqueued;
    StepAt(ss, ts, i);
    SnapshotTaken(ss[i], cs);
    CountAbout(fates, cs, Queued(c));
    if c in cs && c !in ss[i].inflight && forall m :: i < m <= j ==> |ss[m].pollQ| < 4096 {
      var k :| 0 <= k < |cs| && cs[k] == c;
      FreeUpTo(ss, ts, i, j, cs, j, k);
      RoomForAll(ss, ts, i + 1, j);
      assert fates[k] in fates;
      assert fates[k] == Queued(c);
    }
  }

  /** What became of a free client is queueing or a full queue; a client whose turn found it in flight gets no job. */
  lemma {:induction false} JobsAreFates(ss: seq<System>, ts: seq<Step>, i: nat, j: nat, cs: seq<Client>, k: nat)
    requires OneCheck(ss, ts, i, j, cs) && k < |cs|
    ensures var fates := Fates(ss, ts, i + 1, j);
            && |fates| == |cs| && Enqueued(ss, i + 1, j, cs[k]) == (if fates[k].Queued? then 1 else 0)
            && (cs[k] !in ss[i].inflight ==> !fates[k].Busy?)
  {
    hide Next, Enabled, Seen, PollQueueClosed, Fates, FreeUntilTurn;
    var fates := Fates(ss, ts, i + 1, j);
    EachEntryHasItsFate(ss, ts, i, j, cs);
    EnqueuedAreSeen(ss, ts, i + 1, j, cs[k]);
    hide Enqueued;
    StepAt(ss, ts, i);
    SnapshotTaken(ss[i], cs);
    CountAbout(fates, cs, Queued(cs[k]));
    if Queued(cs[k]) in fates {
      var l :| 0 <= l < |fates| && fates[l] == Queued(cs[k]);
      assert cs[l] == cs[k];
    }
    assert fates[k] in fates;
    if cs[k] !in ss[i].inflight {
      FreeUpTo(ss, ts, i, j, cs, j, k);
      assert !fates[k].Busy? by { AfterTurn(ss[j], cs, fates, k); }
    }
  }

  lemma AfterTurn(s: System, cs: seq<Client>, fates: seq<Fate>, k: nat)
    requires k < |cs| && |fates| > k && FreeUntilTurn(s, cs, fates, k)
    ensures !fates[k].Busy?
  {}

  // ---------- order ----------

  /** The clients for which a job was put into the poll queue, in order. */
  function PutIn(ss: seq<System>, n: nat): seq<Client>
    requires n < |ss|
  {
    if n == 0 then []
    else PutIn(ss, n - 1) + (if |ss[n].pollQ| > |ss[n - 1].pollQ| then [ss[n].pollQ[|ss[n].pollQ| - 1]] else [])
  }

  /** The clients whose job a worker got from it, in order. */
  function TakenOut(ss: seq<System>, ts: seq<Step>, n: nat): seq<Client>
    requires n < |ss| == |ts| + 1
  {
    if n == 0 then []
    else
      var t := ts[n - 1];
      TakenOut(ss, ts, n - 1)
      + (if t.Work? && t.a.Take? && t.w < |ss[n].workers| && ss[n].workers[t.w].Taken? then [ss[n].workers[t.w].client]
         else [])
  }

  lemma QueueWork(s: System, w: nat, a: Action)
    requires WorkEnabled(s, w, a)
    ensures var s' := WorkNext(s, w, a);
            if a.Take? then w < |s'.workers| && s'.workers[w].Taken? && s.pollQ == [s'.workers[w].client] + s'.pollQ
            else s'.pollQ == s.pollQ
  {
    SharedFrame(s, w, a);
    hide Shared;
  }

  lemma QueueStep(s: System, t: Step)
    requires Enabled(s, t)
    ensures var s' := Next(s, t);
            if t.Work? && t.a.Take? then
              && t.w < |s'.workers| && s'.workers[t.w].Taken? && s.pollQ == [s'.workers[t.w].client] + s'.pollQ
            else s'.pollQ == s.pollQ || (|s'.pollQ| == |s.pollQ| + 1 && s'.pollQ[..|s.pollQ|] == s.pollQ)
  {
    hide WorkNext, WorkEnabled, PushNext, PushEnabled;
    match t {
      case Work(w, a) => QueueWork(s, w, a);
      case Push(p, y) => QueuePush(s, p, y);
      case Check(tick) =>
      case Stopping(x) =>
    }
  }

  lemma QueuePush(s: System, p: nat, y: PushStep)
    requires PushEnabled(s, p, y)
    ensures PushNext(s, p, y).pollQ == s.pollQ
  {
    hide PushFieldNil;
  }

  /** FIRST COME, FIRST SCRAPED. Every job put into the poll queue has been taken by one worker or is still there, and the
      jobs are taken in the order in which they were put. */
  lemma {:induction false} PollQueueInOrder(ss: seq<System>, ts: seq<Step>, n: nat)
    requires Execution(ss, ts) && n < |ss|
    ensures PutIn(ss, n) == TakenOut(ss, ts, n) + ss[n].pollQ
  {
    hide Next, Enabled;
    if n > 0 {
      StepAt(ss, ts, n - 1);
      PollQueueInOrder(ss, ts, n - 1);
      QueueStep(ss[n - 1], ts[n - 1]);
      var q, q' := ss[n - 1].pollQ, ss[n].pollQ;
      if |q'| == |q| + 1 {
        assert q' == q + [q'[|q|]];
      }
    }
  }
}
