/** The bubbles poller as a machine of atomic steps: each lock region and each channel operation is one step, and ticker,
    workers, push workers and Stop interleave at will. What a job learns from outside (is anyone listening, what did the
    fetch bring) is one step with the lock region that notes it, which only the worker holding the client enters. */
module Poller {
  import opened Common

  /** Client ids are only ever compared for equality here, so they are numbers. */
  type Client = nat

  datatype Bubbles = Bubbles(messages: int, notifications: int, favorites: int)

  const POLL_WORKERS := 16
  const PUSH_WORKERS := 8
  const POLL_QUEUE_SIZE := 4096
  const PUSH_QUEUE_SIZE := 4096

  datatype PushJob = PushJob(client: Client, prev: Bubbles, current: Bubbles, favRose: nat)

  /** One call of enqueuePush: the job, and whether there was a channel with room for it. */
  datatype Submission = Submission(job: PushJob, ok: bool)

  /** Where a poll worker is; from Taken to Finishing or Dropping it holds the job of one client. */
  datatype Worker = Waiting
                  | Taken(client: Client)
                  | Handling(client: Client)
                  | Admitted(client: Client)
                  | Scraping(client: Client)
                  | Scraped(client: Client, current: Bubbles)
                  | Comparing(client: Client, prev: Bubbles, current: Bubbles)
                  | Pushing(client: Client, job: PushJob)
                  | Sending(client: Client, job: PushJob)
                  | Finishing(client: Client)
                  | Dropping(client: Client)
                  | Exited

  /** Where check is: not running; with the poll channel read and the snapshot still to be taken; at entry k of its
      snapshot; holding the slot of `client` before the send, or after it found the queue full. */
  datatype Ticker = Resting
                  | Armed
                  | Walking(clients: seq<Client>, k: nat)
                  | Claimed(client: Client, clients: seq<Client>, k: nat)
                  | Refused(client: Client, clients: seq<Client>, k: nat)

  /** How far Stop is. */
  datatype Stop = NotStopping | StopClosed | PollClosed | PollDrained | PushDetached | PushClosed | Stopped

  /** A push worker reads bp.pushCh when it starts; ranging over a nil channel blocks for ever. */
  datatype Pusher = NotStarted | Draining | Delivering(job: PushJob) | Hung | Ended

  datatype Decision = Undecided | Quiet | Pushed

  /** The history of one client: a (re)baseline, a compared scrape, a gated tick. */
  datatype Record = Base(current: Bubbles) | Compared(prev: Bubbles, current: Bubbles, decision: Decision) | Gate

  datatype Breaker = Breaker(fails: nat, skip: nat)

  datatype System = System(
    inflight: set<Client>, pollQ: seq<Client>, ticker: Ticker, workers: seq<Worker>,
    prev: map<Client, Bubbles>, gated: set<Client>, breaker: map<Client, Breaker>,
    pushQ: seq<PushJob>, pushers: seq<Pusher>, stop: Stop,
    history: map<Client, seq<Record>>, submitted: seq<Submission>, accepted: seq<PushJob>, taken: seq<PushJob>,
    pollPanic: bool, pushPanic: bool)

  function HistoryOf(s: System, c: Client): seq<Record> {
    if c in s.history then s.history[c] else []
  }

  /** After Start, with the baseline poll() took. */
  ghost predicate Init(s: System) {
    && s.inflight == {} && s.pollQ == [] && s.ticker == Resting
    && |s.workers| == POLL_WORKERS && (forall w :: 0 <= w < |s.workers| ==> s.workers[w] == Waiting)
    && s.gated == {} && s.breaker == map[] && s.pushQ == []
    && |s.pushers| == PUSH_WORKERS && (forall p :: 0 <= p < |s.pushers| ==> s.pushers[p] == NotStarted)
    && s.stop == NotStopping && s.submitted == [] && s.accepted == s.taken == []
    && s.history == (map c | c in s.prev :: [Base(s.prev[c])]) && !s.pollPanic && !s.pushPanic
  }

  // ---------- lock regions of checkOne ----------

  /** recordFailure */
  function Failed(b: Option<Breaker>): Breaker {
    var fails := (if b.Some? then b.value.fails else 0) + 1;
    Breaker(fails, Pow2(if fails < 4 then fails else 4))
  }

  function BreakerOf(s: System, c: Client): Option<Breaker> {
    if c in s.breaker then Some(s.breaker[c]) else None
  }

  predicate Changed(prev: Bubbles, current: Bubbles) {
    || current.notifications != prev.notifications
    || current.messages != prev.messages
    || current.favorites != prev.favorites
  }

  function Record1(s: System, c: Client, r: Record): System {
    s.(history := s.history[c := HistoryOf(s, c) + [r]])
  }

  function At(s: System, w: nat, pc: Worker): System {
    if w < |s.workers| then s.(workers := s.workers[w := pc]) else s
  }

  /** First sight of the client, or just resumed after gating: take a baseline and tell nobody. */
  predicate Rebaselines(s: System, c: Client) {
    c !in s.prev || c in s.gated
  }

  /** The region that compares with the last known bubbles, or takes a new baseline. */
  function Commit(s: System, c: Client, current: Bubbles): System {
    Record1(s.(gated := s.gated - {c}, prev := s.prev[c := current]), c,
            if Rebaselines(s, c) then Base(current) else Compared(s.prev[c], current, Undecided))
  }

  function Decide(h: seq<Record>, d: Decision): seq<Record>
    requires h != [] && h[|h| - 1].Compared?
  {
    h[..|h| - 1] + [h[|h| - 1].(decision := d)]
  }

  // ---------- steps ----------

  /** check */
  datatype TickStep = Tick | Snapshot(clients: seq<Client>) | TickNext | TickSend | TickRelease

  /** pollWorker, handlePollSession, checkOne */
  datatype Action = Take | Exit | SeeStop | Pace | Drop
                  | SessionGone | BreakerSkips | BreakerAdmits | Gated | Ungated
                  | FetchFails | FetchOk(current: Bubbles) | Compare | Enrich(favRose: nat)
                  | ReadPushCh | SendPush | Release

  datatype StopStep = CloseStop | ClosePoll | PollWait | DetachPush | ClosePush | PushWait

  datatype PushStep = StartPusher | TakePush | Deliver | EndPusher

  datatype Step = Check(tick: TickStep) | Work(w: nat, a: Action) | Stopping(x: StopStep) | Push(p: nat, y: PushStep)

  predicate PollQueueClosed(s: System) { !s.stop.NotStopping? && !s.stop.StopClosed? }

  predicate PushQueueClosed(s: System) { s.stop.PushClosed? || s.stop.Stopped? }

  predicate PushFieldNil(s: System) { s.stop.PushDetached? || PushQueueClosed(s) }

  predicate DistinctClients(cs: seq<Client>) {
    forall i, j :: 0 <= i < j < |cs| ==> cs[i] != cs[j]
  }

  /** The snapshot of authedSessions comes from a map, so it names no client twice. A tick during Stop finds the poll
      channel nil and is no step at all. */
  predicate TickEnabled(s: System, t: TickStep) {
    match t
    case Tick => s.ticker.Resting? && s.stop.NotStopping?
    case Snapshot(clients) => s.ticker.Armed? && DistinctClients(clients)
    case TickNext => s.ticker.Walking?
    case TickSend => s.ticker.Claimed?
    case TickRelease => s.ticker.Refused?
  }

  predicate WorkEnabled(s: System, w: nat, a: Action) {
    && w < |s.workers|
    && var pc := s.workers[w];
       match a
       case Take => pc.Waiting? && s.pollQ != []
       case Exit => pc.Waiting? && s.pollQ == [] && PollQueueClosed(s)
       case SeeStop => pc.Taken? && !s.stop.NotStopping?
       case Pace => pc.Taken?
       case Drop => pc.Dropping?
       case SessionGone => pc.Handling?
       case BreakerSkips => pc.Handling? && pc.client in s.breaker && s.breaker[pc.client].skip > 0
       case BreakerAdmits => pc.Handling? && (pc.client in s.breaker ==> s.breaker[pc.client].skip == 0)
       case Gated => pc.Admitted?
       case Ungated => pc.Admitted?
       case FetchFails => pc.Scraping?
       case FetchOk(_) => pc.Scraping?
       case Compare => pc.Scraped?
       case Enrich(_) => pc.Comparing? && EndsCompared(HistoryOf(s, pc.client))
       case ReadPushCh => pc.Pushing?
       case SendPush => pc.Sending?
       case Release => pc.Finishing?
  }

  predicate StopEnabled(s: System, x: StopStep) {
    match x
    case CloseStop => s.stop.NotStopping?
    case ClosePoll => s.stop.StopClosed?
    case PollWait => s.stop.PollClosed? && forall w :: 0 <= w < |s.workers| ==> s.workers[w].Exited?
    case DetachPush => s.stop.PollDrained?
    case ClosePush => s.stop.PushDetached?
    case PushWait => s.stop.PushClosed? && forall p :: 0 <= p < |s.pushers| ==> s.pushers[p].Ended?
  }

  predicate PushEnabled(s: System, p: nat, y: PushStep) {
    && p < |s.pushers|
    && match y
       case StartPusher => s.pushers[p].NotStarted?
       case TakePush => s.pushers[p].Draining? && s.pushQ != []
       case Deliver => s.pushers[p].Delivering?
       case EndPusher => s.pushers[p].Draining? && s.pushQ == [] && PushQueueClosed(s)
  }

  predicate Enabled(s: System, t: Step) {
    match t
    case Check(tick) => TickEnabled(s, tick)
    case Work(w, a) => WorkEnabled(s, w, a)
    case Stopping(x) => StopEnabled(s, x)
    case Push(p, y) => PushEnabled(s, p, y)
  }

  /** The last record of the client is the comparison just made (always so, see Chained). */
  predicate EndsCompared(h: seq<Record>) { h != [] && h[|h| - 1].Compared? }

  function TickNextState(s: System, t: TickStep): System
    requires TickEnabled(s, t)
  {
    match t
    case Tick => s.(ticker := Armed)
    case Snapshot(clients) => s.(ticker := Walking(clients, 0))
    case TickNext =>
      var walk := s.ticker;
      var over := walk.k >= |walk.clients|;
      var claims := !over && walk.clients[walk.k] !in s.inflight;
      s.(inflight := if claims then s.inflight + {walk.clients[walk.k]} else s.inflight,
         ticker := if over then Resting
                   else if claims then Claimed(walk.clients[walk.k], walk.clients, walk.k + 1)
                   else Walking(walk.clients, walk.k + 1))
    case TickSend =>
      var panics, room := PollQueueClosed(s), |s.pollQ| < POLL_QUEUE_SIZE;
      s.(pollPanic := s.pollPanic || panics,
         pollQ := if !panics && room then s.pollQ + [s.ticker.client] else s.pollQ,
         ticker := if panics then s.ticker
                   else if room then Walking(s.ticker.clients, s.ticker.k)
                   else Refused(s.ticker.client, s.ticker.clients, s.ticker.k))
    case TickRelease =>
      s.(inflight := s.inflight - {s.ticker.client}, ticker := Walking(s.ticker.clients, s.ticker.k))
  }

  /** Where worker w goes. */
  function NextPc(s: System, w: nat, a: Action): Worker
    requires WorkEnabled(s, w, a)
  {
    var pc := s.workers[w];
    match a
    case Take => Taken(s.pollQ[0])
    case Exit => Exited
    case SeeStop => Dropping(pc.client)
    case Pace => Handling(pc.client)
    case Drop => Waiting
    case SessionGone => Finishing(pc.client)
    case BreakerSkips => Finishing(pc.client)
    case BreakerAdmits => Admitted(pc.client)
    case Gated => Finishing(pc.client)
    case Ungated => Scraping(pc.client)
    case FetchFails => Finishing(pc.client)
    case FetchOk(current) => Scraped(pc.client, current)
    case Compare =>
      if Rebaselines(s, pc.client) then Finishing(pc.client)
      else Comparing(pc.client, s.prev[pc.client], pc.current)
    case Enrich(favRose) =>
      if Changed(pc.prev, pc.current) || favRose > 0 then
        Pushing(pc.client, PushJob(pc.client, pc.prev, pc.current, favRose))
      else Finishing(pc.client)
    case ReadPushCh => if PushFieldNil(s) then Finishing(pc.client) else Sending(pc.client, pc.job)
    case SendPush => if PushQueueClosed(s) then pc else Finishing(pc.client)
    case Release => Waiting
  }

  /** What worker w does to the shared state. */
  function Shared(s: System, w: nat, a: Action): System
    requires WorkEnabled(s, w, a)
  {
    var pc := s.workers[w];
    match a
    case Take => s.(pollQ := s.pollQ[1..])
    case Drop => s.(inflight := s.inflight - {pc.client})
    case Release => s.(inflight := s.inflight - {pc.client})
    case BreakerSkips =>
      var b := s.breaker[pc.client];
      s.(breaker := s.breaker[pc.client := b.(skip := b.skip - 1)])
    case Gated => Record1(s.(gated := s.gated + {pc.client}), pc.client, Gate)
    case FetchFails => s.(breaker := s.breaker[pc.client := Failed(BreakerOf(s, pc.client))])
    case FetchOk(_) =>
      s.(breaker := if pc.client in s.breaker then s.breaker[pc.client := Breaker(0, 0)] else s.breaker)
    case Compare => Commit(s, pc.client, pc.current)
    case Enrich(favRose) =>
      var push := Changed(pc.prev, pc.current) || favRose > 0;
      s.(history := s.history[pc.client := Decide(HistoryOf(s, pc.client), if push then Pushed else Quiet)])
    case ReadPushCh => s.(submitted := if PushFieldNil(s) then s.submitted + [Submission(pc.job, false)]
                                      else s.submitted)
    case SendPush =>
      var panics, room := PushQueueClosed(s), |s.pushQ| < PUSH_QUEUE_SIZE;
      s.(pushPanic := s.pushPanic || panics,
         pushQ := if !panics && room then s.pushQ + [pc.job] else s.pushQ,
         accepted := if !panics && room then s.accepted + [pc.job] else s.accepted,
         submitted := if panics then s.submitted else s.submitted + [Submission(pc.job, room)])
    case _ => s
  }

  function WorkNext(s: System, w: nat, a: Action): System
    requires WorkEnabled(s, w, a)
  {
    At(Shared(s, w, a), w, NextPc(s, w, a))
  }

  function StopNext(s: System, x: StopStep): System {
    s.(stop := match x
               case CloseStop => StopClosed
               case ClosePoll => PollClosed
               case PollWait => PollDrained
               case DetachPush => PushDetached
               case ClosePush => PushClosed
               case PushWait => Stopped)
  }

  function PushNext(s: System, p: nat, y: PushStep): System
    requires PushEnabled(s, p, y)
  {
    match y
    case StartPusher => s.(pushers := s.pushers[p := if PushFieldNil(s) then Hung else Draining])
    case TakePush =>
      s.(pushQ := s.pushQ[1..], taken := s.taken + [s.pushQ[0]], pushers := s.pushers[p := Delivering(s.pushQ[0])])
    case Deliver => s.(pushers := s.pushers[p := Draining])
    case EndPusher => s.(pushers := s.pushers[p := Ended])
  }

  function Next(s: System, t: Step): System
    requires Enabled(s, t)
  {
    match t
    case Check(tick) => TickNextState(s, tick)
    case Work(w, a) => WorkNext(s, w, a)
    case Stopping(x) => StopNext(s, x)
    case Push(p, y) => PushNext(s, p, y)
  }

  // ---------- runs ----------

  ghost predicate StepOk(ss: seq<System>, ts: seq<Step>, i: nat) {
    i < |ts| && i + 1 < |ss| && Enabled(ss[i], ts[i]) && ss[i + 1] == Next(ss[i], ts[i])
  }

  ghost predicate Execution(ss: seq<System>, ts: seq<Step>) {
    |ss| == |ts| + 1 && Init(ss[0]) && forall i: nat :: i < |ts| ==> StepOk(ss, ts, i)
  }

  lemma StepAt(ss: seq<System>, ts: seq<Step>, k: nat)
    requires Execution(ss, ts) && k < |ts|
    ensures |ss| == |ts| + 1 && Enabled(ss[k], ts[k]) && ss[k + 1] == Next(ss[k], ts[k])
  {
    assert StepOk(ss, ts, k);
  }

  // ---------- inflight ----------

  function ClientOf(pc: Worker): Option<Client> {
    match pc
    case Waiting => None
    case Exited => None
    case _ => Some(pc.client)
  }

  function TickerClient(t: Ticker): Option<Client> {
    match t
    case Claimed(c, _, _) => Some(c)
    case Refused(c, _, _) => Some(c)
    case _ => None
  }

  /** c is held by worker w. */
  predicate Holds(s: System, w: nat, c: Client) {
    w < |s.workers| && ClientOf(s.workers[w]) == Some(c)
  }

  ghost predicate Held(s: System, c: Client) {
    exists w: nat :: Holds(s, w, c)
  }

  /** One slot per client: it is claimed, queued, or held by one worker, and nowhere else. */
  ghost predicate Slots(s: System) {
    && (forall c :: c in s.inflight <==> TickerClient(s.ticker) == Some(c) || c in s.pollQ || Held(s, c))
    && DistinctClients(s.pollQ)
    && (forall c :: c in s.pollQ ==> TickerClient(s.ticker) != Some(c) && !Held(s, c))
    && (forall c: Client :: Held(s, c) ==> TickerClient(s.ticker) != Some(c))
    && (forall v, w, c :: Holds(s, v, c) && Holds(s, w, c) ==> v == w)
  }

  /** A worker that moves on with the same client, and nothing else of it changes. */
  lemma HoldsSame(s: System, s': System, w: nat)
    requires w < |s.workers| == |s'.workers| && s'.workers == s.workers[w := s'.workers[w]]
    requires ClientOf(s'.workers[w]) == ClientOf(s.workers[w])
    ensures forall v, c :: Holds(s', v, c) <==> Holds(s, v, c)
    ensures forall c :: Held(s', c) <==> Held(s, c)
  {
    forall v, c
      ensures Holds(s', v, c) <==> Holds(s, v, c)
    {}
    forall c
      ensures Held(s', c) <==> Held(s, c)
    {
      if v :| Holds(s, v, c) {
        assert Holds(s', v, c);
      }
      if v :| Holds(s', v, c) {
        assert Holds(s, v, c);
      }
    }
  }

  lemma SlotsSame(s: System, s': System, w: nat)
    requires Slots(s) && w < |s.workers| == |s'.workers| && s'.workers == s.workers[w := s'.workers[w]]
    requires ClientOf(s'.workers[w]) == ClientOf(s.workers[w])
    requires s'.inflight == s.inflight && s'.pollQ == s.pollQ && s'.ticker == s.ticker
    ensures Slots(s')
  {
    HoldsSame(s, s', w);
  }

  /** Worker w gives its client up, and the slot is cleared. */
  lemma SlotsReleased(s: System, s': System, w: nat, c: Client)
    requires Slots(s) && Holds(s, w, c) && s'.workers == s.workers[w := Waiting]
    requires s'.inflight == s.inflight - {c} && s'.pollQ == s.pollQ && s'.ticker == s.ticker
    ensures Slots(s')
  {
    forall v, d
      ensures Holds(s', v, d) <==> Holds(s, v, d) && v != w
    {}
    forall d
      ensures Held(s', d) <==> Held(s, d) && d != c
    {
      if v :| Holds(s, v, d) {
        if d != c {
          assert Holds(s', v, d);
        } else {
          assert v == w;
        }
      }
      if v :| Holds(s', v, d) {
        assert Holds(s, v, d);
      }
    }
    assert Held(s, c);
  }

  lemma SlotsTaken(s: System, w: nat)
    requires Slots(s) && WorkEnabled(s, w, Take)
    ensures Slots(WorkNext(s, w, Take))
  {
    var s', c := WorkNext(s, w, Take), s.pollQ[0];
    forall v, d
      ensures Holds(s', v, d) <==> Holds(s, v, d) || (v == w && d == c)
    {}
    forall d
      ensures Held(s', d) <==> Held(s, d) || d == c
    {
      if v :| Holds(s, v, d) {
        assert Holds(s', v, d);
      }
      if v :| Holds(s', v, d) {
        assert d != c ==> Holds(s, v, d);
      }
      if d == c {
        assert Holds(s', w, c);
      }
    }
    assert forall d :: d in s.pollQ <==> d == c || d in s'.pollQ;
  }

  lemma SameWorkersHeld(s: System, s': System)
    requires s'.workers == s.workers
    ensures forall v, c :: Holds(s', v, c) <==> Holds(s, v, c)
    ensures forall c :: Held(s', c) <==> Held(s, c)
  {
    forall c
      ensures Held(s', c) <==> Held(s, c)
    {
      if v :| Holds(s, v, c) {
        assert Holds(s', v, c);
      }
      if v :| Holds(s', v, c) {
        assert Holds(s, v, c);
      }
    }
  }

  lemma DistinctSnoc(q: seq<Client>, c: Client)
    requires DistinctClients(q) && c !in q
    ensures DistinctClients(q + [c]) && forall d :: d in q + [c] <==> d in q || d == c
  {}

  /** The ticker's slot changes hands: claimed, put into the queue, or given back. */
  lemma SlotsHanded(s: System, s': System, c: Client)
    requires Slots(s) && s'.workers == s.workers
    requires || (c !in s.inflight && TickerClient(s.ticker) == None && s'.inflight == s.inflight + {c}
                 && s'.pollQ == s.pollQ && TickerClient(s'.ticker) == Some(c))
             || (TickerClient(s.ticker) == Some(c) && s'.inflight == s.inflight && s'.pollQ == s.pollQ + [c]
                 && TickerClient(s'.ticker) == None)
             || (TickerClient(s.ticker) == Some(c) && s'.inflight == s.inflight - {c} && s'.pollQ == s.pollQ
                 && TickerClient(s'.ticker) == None)
    ensures Slots(s')
  {
    SameWorkersHeld(s, s');
    if s'.pollQ != s.pollQ {
      DistinctSnoc(s.pollQ, c);
    }
    hide Held, Holds, DistinctClients, TickerClient;
  }

  lemma SlotsTick(s: System, t: TickStep)
    requires Slots(s) && TickEnabled(s, t)
    ensures Slots(TickNextState(s, t))
  {
    hide Slots;
    var s' := TickNextState(s, t);
    match t {
      case Tick => SlotsUnchanged(s, s');
      case Snapshot(_) => SlotsUnchanged(s, s');
      case TickNext =>
        if s.ticker.k < |s.ticker.clients| && s.ticker.clients[s.ticker.k] !in s.inflight {
          SlotsHanded(s, s', s.ticker.clients[s.ticker.k]);
        } else {
          SlotsUnchanged(s, s');
        }
      case TickSend =>
        if s'.pollQ != s.pollQ {
          SlotsHanded(s, s', s.ticker.client);
        } else {
          SlotsUnchanged(s, s');
        }
      case TickRelease => SlotsHanded(s, s', s.ticker.client);
    }
  }

  /** What a worker that keeps its client leaves as it is; Exit goes from no client to none. */
  ghost predicate SameClient(s: System, s': System, w: nat) {
    && w < |s.workers| == |s'.workers| && s'.workers == s.workers[w := s'.workers[w]]
    && ClientOf(s'.workers[w]) == ClientOf(s.workers[w])
    && s'.inflight == s.inflight && s'.pollQ == s.pollQ && s'.ticker == s.ticker
    && s'.pushers == s.pushers && s'.stop == s.stop && s'.taken == s.taken
  }

  /** The fields a worker step may touch. */
  lemma SharedFrame(s: System, w: nat, a: Action)
    requires WorkEnabled(s, w, a)
    ensures var s1 := Shared(s, w, a);
            && (a.Take? ==> s1 == s.(pollQ := s.pollQ[1..]))
            && (a.Drop? || a.Release? ==> s1 == s.(inflight := s1.inflight))
            && (a.SendPush? ==> s1 == s.(pushQ := s1.pushQ, accepted := s1.accepted, submitted := s1.submitted,
                                         pushPanic := s1.pushPanic))
            && (!a.Take? && !a.Drop? && !a.Release? && !a.SendPush? ==>
                  s1 == s.(breaker := s1.breaker, gated := s1.gated, prev := s1.prev, history := s1.history,
                           submitted := s1.submitted))
  {
    hide Decide, Changed, Failed, HistoryOf, BreakerOf, PushFieldNil, PushQueueClosed;
    match a {
      case Compare =>
      case Enrich(_) =>
      case Gated =>
      case SendPush =>
      case _ =>
    }
  }

  lemma KeepsClient(s: System, w: nat, a: Action)
    requires WorkEnabled(s, w, a) && !a.Take? && !a.Drop? && !a.Release?
    ensures SameClient(s, WorkNext(s, w, a), w)
  {
    SharedFrame(s, w, a);
    hide Shared;
  }

  lemma SlotsWork(s: System, w: nat, a: Action)
    requires Slots(s) && WorkEnabled(s, w, a)
    ensures Slots(WorkNext(s, w, a))
  {
    hide Slots;
    var s' := WorkNext(s, w, a);
    match a {
      case Take => SlotsTaken(s, w);
      case Drop => SlotsReleased(s, s', w, s.workers[w].client);
      case Release => SlotsReleased(s, s', w, s.workers[w].client);
      case _ =>
        KeepsClient(s, w, a);
        hide WorkNext;
        SlotsSame(s, s', w);
    }
  }

  lemma SlotsStep(s: System, t: Step)
    requires Slots(s) && Enabled(s, t)
    ensures Slots(Next(s, t))
  {
    hide Slots, TickNextState, WorkNext, TickEnabled, WorkEnabled;
    match t {
      case Check(tick) => SlotsTick(s, tick);
      case Work(w, a) => SlotsWork(s, w, a);
      case Stopping(x) => SlotsUnchanged(s, StopNext(s, x));
      case Push(p, y) => SlotsUnchanged(s, PushNext(s, p, y));
    }
  }

  lemma SlotsUnchanged(s: System, s': System)
    requires Slots(s) && s'.workers == s.workers && s'.inflight == s.inflight && s'.pollQ == s.pollQ
    requires TickerClient(s'.ticker) == TickerClient(s.ticker)
    ensures Slots(s')
  {
    SameWorkersHeld(s, s');
  }

  lemma {:induction false} SlotsAlways(ss: seq<System>, ts: seq<Step>, i: nat)
    requires Execution(ss, ts) && i < |ss|
    ensures Slots(ss[i])
  {
    hide Next, Enabled;
    if i > 0 {
      StepAt(ss, ts, i - 1);
      SlotsAlways(ss, ts, i - 1);
      SlotsStep(ss[i - 1], ts[i - 1]);
    }
  }

  /** THE INFLIGHT THEOREM. In every interleaving, a client is in `inflight` exactly when its one job is being enqueued,
      queued or running: never two workers, never queued twice, never queued and running. */
  lemma InflightExact(ss: seq<System>, ts: seq<Step>, i: nat, c: Client)
    requires Execution(ss, ts) && i < |ss|
    ensures var s := ss[i];
            && (c in s.inflight <==> TickerClient(s.ticker) == Some(c) || c in s.pollQ || Held(s, c))
            && !(c in s.pollQ && Held(s, c)) && !(TickerClient(s.ticker) == Some(c) && (c in s.pollQ || Held(s, c)))
            && DistinctClients(s.pollQ) && (forall v, w :: Holds(s, v, c) && Holds(s, w, c) ==> v == w)
  {
    SlotsAlways(ss, ts, i);
  }

  /** Every claimed slot is given back: with nothing enqueued, queued or running, the set is empty. */
  lemma DrainedMeansEmpty(ss: seq<System>, ts: seq<Step>, i: nat)
    requires Execution(ss, ts) && i < |ss|
    requires ss[i].pollQ == [] && TickerClient(ss[i].ticker) == None
    requires forall w :: 0 <= w < |ss[i].workers| ==> ss[i].workers[w].Waiting? || ss[i].workers[w].Exited?
    ensures ss[i].inflight == {}
  {
    SlotsAlways(ss, ts, i);
  }
}
