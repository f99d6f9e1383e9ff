/** What the poller tells about one client: its push jobs form a chain that never spans a gap. */
module PollerChain {
  import opened Common
  import opened Poller
  import PollerStop

  type Pair = (Bubbles, Bubbles)

  // ---------- histories ----------

  function Known(h: seq<Record>): Option<Bubbles> {
    if h == [] then None
    else match h[|h| - 1]
      case Gate => Known(h[..|h| - 1])
      case Base(current) => Some(current)
      case Compared(_, current, _) => Some(current)
  }

  predicate EndsGated(h: seq<Record>) { h != [] && h[|h| - 1].Gate? }

  /** Record k continues the one before it: what it was compared with is what that one brought, with no gated tick in
      between; and it was kept quiet only if nothing changed. */
  predicate Continues(h: seq<Record>, k: nat)
    requires k < |h|
  {
    h[k].Compared? ==>
      && k > 0 && !h[k - 1].Gate? && h[k - 1].current == h[k].prev
      && (h[k].decision.Quiet? ==> h[k].current == h[k].prev)
  }

  ghost predicate Linked(h: seq<Record>) {
    forall k :: 0 <= k < |h| ==> Continues(h, k)
  }

  predicate Decided(r: Record) { r.Compared? ==> !r.decision.Undecided? }

  ghost predicate AllDecided(h: seq<Record>) {
    forall k :: 0 <= k < |h| ==> Decided(h[k])
  }

  /** The pairs (prev, current) that were pushed. */
  function Pushes(h: seq<Record>): seq<Pair> {
    if h == [] then []
    else Pushes(h[..|h| - 1])
         + (var r := h[|h| - 1]; if r.Compared? && r.decision.Pushed? then [(r.prev, r.current)] else [])
  }

  /** What was handed to enqueuePush for client c, in order. */
  function SubmittedOf(js: seq<Submission>, c: Client): seq<Pair> {
    if js == [] then []
    else SubmittedOf(js[..|js| - 1], c)
         + (var j := js[|js| - 1].job; if j.client == c then [(j.prev, j.current)] else [])
  }

  lemma PushesSnoc(h: seq<Record>, r: Record)
    ensures Pushes(h + [r]) == Pushes(h) + (if r.Compared? && r.decision.Pushed? then [(r.prev, r.current)] else [])
  {
    assert (h + [r])[..|h|] == h;
  }

  lemma SubmittedSnoc(js: seq<Submission>, j: Submission, c: Client)
    ensures SubmittedOf(js + [j], c) == SubmittedOf(js, c) + (if j.job.client == c then [(j.job.prev, j.job.current)] else [])
  {
    assert (js + [j])[..|js|] == js;
  }

  lemma LinkedSnoc(h: seq<Record>, r: Record)
    requires Linked(h)
    requires r.Compared? ==> h != [] && !h[|h| - 1].Gate? && h[|h| - 1].current == r.prev && !r.decision.Quiet?
    ensures Linked(h + [r])
  {
    forall k | 0 <= k < |h + [r]|
      ensures Continues(h + [r], k)
    {
      if k < |h| {
        assert Continues(h, k);
      }
    }
  }

  lemma DecidedSnoc(h: seq<Record>, r: Record)
    ensures AllDecided(h + [r]) <==> AllDecided(h) && Decided(r)
  {
    if AllDecided(h + [r]) {
      forall k | 0 <= k < |h|
        ensures Decided(h[k])
      {
        assert (h + [r])[k] == h[k];
      }
      assert (h + [r])[|h|] == r;
    }
  }

  lemma KnownSnoc(h: seq<Record>, r: Record)
    ensures Known(h + [r]) == if r.Gate? then Known(h) else Some(r.current)
  {
    assert (h + [r])[..|h|] == h;
  }

  // ---------- the account of one client ----------

  ghost predicate Done(h: seq<Record>, sub: seq<Pair>) {
    AllDecided(h) && Pushes(h) == sub
  }

  /** What the worker that holds the client still owes it. */
  ghost predicate Owing(pc: Worker, h: seq<Record>, sub: seq<Pair>) {
    match pc
    case Comparing(_, prev, current) =>
      h != [] && h[|h| - 1] == Compared(prev, current, Undecided) && Done(h[..|h| - 1], sub)
    case Pushing(c, job) =>
      && job.client == c && AllDecided(h) && Pushes(h) == sub + [(job.prev, job.current)]
    case Sending(c, job) =>
      && job.client == c && AllDecided(h) && Pushes(h) == sub + [(job.prev, job.current)]
    case _ => Done(h, sub)
  }

  ghost predicate Remembered(s: System, c: Client) {
    var h := HistoryOf(s, c);
    && (if c in s.prev then Known(h) == Some(s.prev[c]) else Known(h) == None)
    && (c in s.gated <==> EndsGated(h))
    && Linked(h)
  }

  ghost predicate Accounted(s: System, c: Client) {
    var h, sub := HistoryOf(s, c), SubmittedOf(s.submitted, c);
    && (forall w: nat :: Holds(s, w, c) ==> Owing(s.workers[w], h, sub))
    && (!Held(s, c) ==> Done(h, sub))
  }

  ghost predicate Chained(s: System) {
    forall c: Client :: Remembered(s, c) && Accounted(s, c)
  }

  // ---------- one step, seen by one client ----------

  /** Nothing of c has changed. */
  ghost predicate SameFor(s: System, s': System, c: Client) {
    && HistoryOf(s', c) == HistoryOf(s, c) && (c in s'.prev <==> c in s.prev)
    && (c in s.prev ==> s'.prev[c] == s.prev[c]) && (c in s'.gated <==> c in s.gated)
    && SubmittedOf(s'.submitted, c) == SubmittedOf(s.submitted, c)
  }

  lemma SameForAccount(s: System, s': System, c: Client)
    requires SameFor(s, s', c) && Remembered(s, c) && Accounted(s, c)
    requires forall w: nat :: Holds(s', w, c) ==> Holds(s, w, c) && s'.workers[w] == s.workers[w]
    requires Held(s, c) ==> Held(s', c)
    ensures Remembered(s', c) && Accounted(s', c)
  {
    hide Known, EndsGated, Linked, Owing, Done;
  }

  /** Another worker's step leaves the workers of c alone. */
  lemma OtherClient(s: System, w: nat, a: Action, c: Client)
    requires WorkEnabled(s, w, a)
    requires ClientOf(s.workers[w]) != Some(c) && ClientOf(NextPc(s, w, a)) != Some(c)
    ensures var s' := WorkNext(s, w, a);
            && (forall v: nat :: Holds(s', v, c) ==> Holds(s, v, c) && s'.workers[v] == s.workers[v])
            && (Held(s, c) ==> Held(s', c))
  {
    SharedFrame(s, w, a);
    var s' := WorkNext(s, w, a);
    assert s'.workers == s.workers[w := NextPc(s, w, a)];
    hide Shared, NextPc, WorkEnabled;
    if v: nat :| Holds(s, v, c) {
      assert Holds(s', v, c);
    }
  }

  predicate TouchesData(a: Action) {
    a.Gated? || a.Compare? || a.Enrich? || a.ReadPushCh? || a.SendPush?
  }

  lemma LeavesData(s: System, w: nat, a: Action)
    requires WorkEnabled(s, w, a) && !TouchesData(a)
    ensures var s' := WorkNext(s, w, a);
            s' == s.(pollQ := s'.pollQ, inflight := s'.inflight, breaker := s'.breaker, workers := s'.workers)
  {
    hide Decide, Changed, Failed, BreakerOf;
  }

  /** The data of client c alone. */
  lemma DataOf(s: System, s': System, c: Client, d: Client)
    requires d != c && s'.submitted == s.submitted
    requires s'.history == s.history || s'.history == s.history[c := HistoryOf(s', c)]
    requires s'.prev == s.prev || (c in s'.prev && s'.prev == s.prev[c := s'.prev[c]])
    requires s'.gated == s.gated || s'.gated == s.gated + {c} || s'.gated == s.gated - {c}
    ensures SameFor(s, s', d)
  {}

  /** A step of worker w changes the data of its own client only. */
  lemma DataOfOthers(s: System, w: nat, a: Action, d: Client)
    requires WorkEnabled(s, w, a) && ClientOf(s.workers[w]) != Some(d)
    requires s.workers[w].Pushing? || s.workers[w].Sending? ==> s.workers[w].job.client != d
    ensures SameFor(s, WorkNext(s, w, a), d)
  {
    var pc, s' := s.workers[w], WorkNext(s, w, a);
    hide Decide, Changed, Failed, BreakerOf, PushFieldNil, PushQueueClosed, SameFor;
    if !TouchesData(a) {
      LeavesData(s, w, a);
      hide WorkNext;
      DataOf(s, s', d + 1, d);
    } else if a.ReadPushCh? || a.SendPush? {
      SubmitOther(s, w, a, d);
    } else {
      assert s'.submitted == s.submitted;
      DataOf(s, s', pc.client, d);
    }
  }

  /** Handing a job of another client to enqueuePush. */
  lemma SubmitSame(s: System, s': System, j: Submission, d: Client)
    requires s'.history == s.history && s'.prev == s.prev && s'.gated == s.gated && j.job.client != d
    requires s'.submitted == s.submitted || s'.submitted == s.submitted + [j]
    ensures SameFor(s, s', d)
  {
    SubmittedSnoc(s.submitted, j, d);
    hide SubmittedOf;
  }

  lemma SubmitOther(s: System, w: nat, a: Action, d: Client)
    requires WorkEnabled(s, w, a) && (a.ReadPushCh? || a.SendPush?) && s.workers[w].job.client != d
    ensures SameFor(s, WorkNext(s, w, a), d)
  {
    var job, room := s.workers[w].job, |s.pushQ| < PUSH_QUEUE_SIZE;
    var s' := WorkNext(s, w, a);
    SharedFrame(s, w, a);
    assert s'.history == s.history && s'.prev == s.prev && s'.gated == s.gated;
    hide SameFor, PushFieldNil, PushQueueClosed;
    SubmitSame(s, s', Submission(job, a.SendPush? && room), d);
  }

  // ---------- one step, seen by its own client ----------

  /** The data of c and what its worker, now at pc, owes it. */
  ghost predicate InOrder(s: System, pc: Worker, c: Client) {
    var h, sub := HistoryOf(s, c), SubmittedOf(s.submitted, c);
    Remembered(s, c) && (if ClientOf(pc) == Some(c) then Owing(pc, h, sub) else Done(h, sub))
  }

  lemma GateInOrder(s: System, w: nat)
    requires WorkEnabled(s, w, Gated) && InOrder(s, s.workers[w], s.workers[w].client)
    ensures InOrder(Shared(s, w, Gated), NextPc(s, w, Gated), s.workers[w].client)
  {
    var c, s1 := s.workers[w].client, Shared(s, w, Gated);
    var h := HistoryOf(s, c);
    assert s1 == s.(gated := s.gated + {c}, history := s.history[c := h + [Gate]]);
    assert NextPc(s, w, Gated) == Finishing(c) && EndsGated(h + [Gate]) && HistoryOf(s1, c) == h + [Gate];
    hide Shared, NextPc, WorkEnabled, HistoryOf, EndsGated;
    LinkedSnoc(h, Gate);
    KnownSnoc(h, Gate);
    PushesSnoc(h, Gate);
    DecidedSnoc(h, Gate);
    hide Linked, Known, Pushes, SubmittedOf, AllDecided;
  }

  /** What a comparison, or a new baseline, adds to the history. */
  function Compares(s: System, c: Client, current: Bubbles): Record {
    if Rebaselines(s, c) then Base(current) else Compared(s.prev[c], current, Undecided)
  }

  lemma CompareShape(s: System, w: nat)
    requires WorkEnabled(s, w, Compare)
    ensures var c, current := s.workers[w].client, s.workers[w].current;
            var r, s1 := Compares(s, c, current), Shared(s, w, Compare);
            && HistoryOf(s1, c) == HistoryOf(s, c) + [r] && s1.gated == s.gated - {c}
            && s1.prev == s.prev[c := current] && s1.submitted == s.submitted
            && NextPc(s, w, Compare) == if r.Base? then Finishing(c) else Comparing(c, r.prev, current)
  {}

  lemma ComparesWithLast(s: System, c: Client, current: Bubbles)
    requires Remembered(s, c) && Compares(s, c, current).Compared?
    ensures c in s.prev && Compares(s, c, current).prev == s.prev[c]
    ensures var h := HistoryOf(s, c); h != [] && !h[|h| - 1].Gate? && h[|h| - 1].current == s.prev[c]
  {
    var h := HistoryOf(s, c);
    assert !EndsGated(h) && Known(h) == Some(s.prev[c]);
  }

  /** The history with one more scrape in it. */
  lemma OneMoreScrape(h: seq<Record>, r: Record, sub: seq<Pair>)
    requires Linked(h) && Done(h, sub) && !r.Gate? && (r.Compared? ==> r.decision.Undecided?)
    requires r.Compared? ==> h != [] && !h[|h| - 1].Gate? && h[|h| - 1].current == r.prev
    ensures Linked(h + [r]) && Known(h + [r]) == Some(r.current) && !EndsGated(h + [r])
    ensures r.Base? ==> Done(h + [r], sub)
    ensures var g := h + [r]; g != [] && g[|g| - 1] == r && g[..|g| - 1] == h
  {
    LinkedSnoc(h, r);
    KnownSnoc(h, r);
    PushesSnoc(h, r);
    DecidedSnoc(h, r);
    hide Linked, Known, Pushes, AllDecided;
  }

  lemma CompareInOrder(s: System, w: nat)
    requires WorkEnabled(s, w, Compare) && InOrder(s, s.workers[w], s.workers[w].client)
    ensures InOrder(Shared(s, w, Compare), NextPc(s, w, Compare), s.workers[w].client)
  {
    hide Shared, NextPc, HistoryOf, EndsGated, Linked, Known, Done, SubmittedOf, Rebaselines;
    var c, current := s.workers[w].client, s.workers[w].current;
    var h, r := HistoryOf(s, c), Compares(s, c, current);
    assert s.workers[w].Scraped? && !r.Gate? && (r.Compared? ==> r.decision.Undecided?) && r.current == current;
    CompareShape(s, w);
    hide WorkEnabled;
    if r.Compared? {
      ComparesWithLast(s, c, current);
    }
    hide Compares;
    OneMoreScrape(h, r, SubmittedOf(s.submitted, c));
  }

  lemma DecideLinked(h: seq<Record>, d: Decision)
    requires Linked(h) && EndsCompared(h)
    requires d.Quiet? ==> h[|h| - 1].current == h[|h| - 1].prev
    ensures Linked(Decide(h, d)) && Known(Decide(h, d)) == Known(h)
  {
    var g := Decide(h, d);
    forall k | 0 <= k < |g|
      ensures Continues(g, k)
    {
      assert Continues(h, k);
    }
  }

  lemma EnrichInOrder(s: System, w: nat, favRose: nat)
    requires WorkEnabled(s, w, Enrich(favRose)) && InOrder(s, s.workers[w], s.workers[w].client)
    ensures InOrder(Shared(s, w, Enrich(favRose)), NextPc(s, w, Enrich(favRose)), s.workers[w].client)
  {
    var pc := s.workers[w];
    var c := pc.client;
    var h, sub := HistoryOf(s, c), SubmittedOf(s.submitted, c);
    var push := Changed(pc.prev, pc.current) || favRose > 0;
    var d := if push then Pushed else Quiet;
    var s1 := Shared(s, w, Enrich(favRose));
    DecideLinked(h, d);
    var before, r := h[..|h| - 1], h[|h| - 1].(decision := d);
    assert HistoryOf(s1, c) == Decide(h, d) == before + [r];
    PushesSnoc(before, r);
    DecidedSnoc(before, r);
    assert EndsGated(Decide(h, d)) == EndsGated(h);
    assert s1 == s.(history := s.history[c := Decide(h, d)]);
    hide Shared, WorkEnabled, HistoryOf, EndsGated, Linked, Known, Pushes, SubmittedOf, AllDecided;
  }

  /** Does enqueuePush come back with this step? */
  predicate Submits(s: System, a: Action) {
    (a.ReadPushCh? && PushFieldNil(s)) || (a.SendPush? && !PushQueueClosed(s))
  }

  lemma SubmitShape(s: System, w: nat, a: Action)
    requires WorkEnabled(s, w, a) && (a.ReadPushCh? || a.SendPush?)
    ensures var pc, s1 := s.workers[w], Shared(s, w, a);
            var j := Submission(pc.job, a.SendPush? && |s.pushQ| < PUSH_QUEUE_SIZE);
            && s1.history == s.history && s1.prev == s.prev && s1.gated == s.gated
            && s1.submitted == (if Submits(s, a) then s.submitted + [j] else s.submitted)
            && NextPc(s, w, a) == if Submits(s, a) then Finishing(pc.client) else Sending(pc.client, pc.job)
  {
    hide PushFieldNil, PushQueueClosed;
  }

  lemma SubmitInOrder(s: System, w: nat, a: Action)
    requires WorkEnabled(s, w, a) && (a.ReadPushCh? || a.SendPush?) && InOrder(s, s.workers[w], s.workers[w].client)
    ensures InOrder(Shared(s, w, a), NextPc(s, w, a), s.workers[w].client)
  {
    var pc := s.workers[w];
    assert pc.Pushing? || pc.Sending?;
    SubmitShape(s, w, a);
    assert HistoryOf(Shared(s, w, a), pc.client) == HistoryOf(s, pc.client);
    hide Shared, NextPc, WorkEnabled, HistoryOf, Submits, Linked, Known, Pushes, AllDecided, EndsGated;
    SubmittedSnoc(s.submitted, Submission(pc.job, a.SendPush? && |s.pushQ| < PUSH_QUEUE_SIZE), pc.client);
    hide SubmittedOf;
  }

  lemma PlainInOrder(s: System, w: nat, a: Action, c: Client)
    requires WorkEnabled(s, w, a) && !TouchesData(a) && !a.Take? && ClientOf(s.workers[w]) == Some(c)
    requires InOrder(s, s.workers[w], c)
    ensures InOrder(Shared(s, w, a), NextPc(s, w, a), c)
  {
    var s1 := Shared(s, w, a);
    assert s1 == s.(inflight := s1.inflight, breaker := s1.breaker) by {
      hide Decide, Changed, Failed, BreakerOf;
    }
    hide Shared, Linked, Known, Pushes, SubmittedOf, Done;
  }

  lemma OwnInOrder(s: System, w: nat, a: Action, c: Client)
    requires WorkEnabled(s, w, a) && !a.Take? && ClientOf(s.workers[w]) == Some(c) && InOrder(s, s.workers[w], c)
    ensures InOrder(Shared(s, w, a), NextPc(s, w, a), c)
  {
    hide InOrder, Shared, NextPc;
    match a {
      case Gated => GateInOrder(s, w);
      case Compare => CompareInOrder(s, w);
      case Enrich(favRose) => EnrichInOrder(s, w, favRose);
      case ReadPushCh => SubmitInOrder(s, w, a);
      case SendPush => SubmitInOrder(s, w, a);
      case _ => PlainInOrder(s, w, a, c);
    }
  }

  /** The worker that holds c is the only one, before and after. */
  lemma OnlyHolder(s: System, s': System, w: nat, pc': Worker, c: Client)
    requires Slots(s) && Holds(s, w, c) && |s'.workers| == |s.workers| && s'.workers == s.workers[w := pc']
    ensures forall v: nat :: Holds(s', v, c) ==> v == w && ClientOf(pc') == Some(c) && s'.workers[v] == pc'
    ensures Held(s', c) <==> ClientOf(pc') == Some(c)
  {
    if ClientOf(pc') == Some(c) {
      assert Holds(s', w, c);
    }
    forall v: nat | Holds(s', v, c)
      ensures v == w && ClientOf(pc') == Some(c)
    {
      assert v != w ==> Holds(s, v, c);
    }
  }

  /** What is in order for c and the worker that holds it stays so when the worker is put in its place. */
  lemma PutBack(s: System, s1: System, w: nat, pc': Worker, c: Client)
    requires Slots(s) && Holds(s, w, c) && s1.workers == s.workers && InOrder(s1, pc', c)
    ensures var s' := s1.(workers := s.workers[w := pc']); Remembered(s', c) && Accounted(s', c)
  {
    var s' := s1.(workers := s.workers[w := pc']);
    OnlyHolder(s, s', w, pc', c);
    assert HistoryOf(s', c) == HistoryOf(s1, c);
    hide Slots, Holds, Held, Linked, Known, Pushes, SubmittedOf, Done, Owing, EndsGated, HistoryOf;
  }

  lemma OwnStep(s: System, w: nat, a: Action, c: Client)
    requires Slots(s) && Remembered(s, c) && Accounted(s, c)
    requires WorkEnabled(s, w, a) && !a.Take? && Holds(s, w, c)
    ensures Remembered(WorkNext(s, w, a), c) && Accounted(WorkNext(s, w, a), c)
  {
    assert InOrder(s, s.workers[w], c);
    hide Remembered, Accounted, InOrder, Slots, Shared, NextPc, WorkEnabled;
    OwnInOrder(s, w, a, c);
    SharedFrame(s, w, a);
    PutBack(s, Shared(s, w, a), w, NextPc(s, w, a), c);
  }

  /** A worker never changes to another client. */
  lemma NextClient(s: System, w: nat, a: Action)
    requires WorkEnabled(s, w, a) && !a.Take?
    ensures ClientOf(NextPc(s, w, a)) == ClientOf(s.workers[w]) || ClientOf(NextPc(s, w, a)) == None
  {}

  lemma TakeStep(s: System, w: nat, c: Client)
    requires Slots(s) && Remembered(s, c) && Accounted(s, c) && WorkEnabled(s, w, Take) && c == s.pollQ[0]
    ensures Remembered(WorkNext(s, w, Take), c) && Accounted(WorkNext(s, w, Take), c)
  {
    var s' := WorkNext(s, w, Take);
    assert !Held(s, c);
    assert s' == s.(pollQ := s.pollQ[1..], workers := s.workers[w := Taken(c)]);
    hide Linked, Known, Pushes, SubmittedOf, Done, EndsGated, WorkNext;
    assert Holds(s', w, c);
    forall v: nat | Holds(s', v, c)
      ensures v == w
    {
      assert v != w ==> Holds(s, v, c);
      assert v != w ==> Held(s, c);
    }
  }

  /** The job a worker carries belongs to the client it holds. */
  lemma OwnJob(s: System, w: nat)
    requires Chained(s) && w < |s.workers| && (s.workers[w].Pushing? || s.workers[w].Sending?)
    ensures s.workers[w].job.client == s.workers[w].client
  {
    var c := s.workers[w].client;
    assert Remembered(s, c) && Accounted(s, c);
    assert Holds(s, w, c);
  }

  lemma ChainedWork(s: System, w: nat, a: Action)
    requires Slots(s) && Chained(s) && WorkEnabled(s, w, a)
    ensures Chained(WorkNext(s, w, a))
  {
    hide WorkNext, Slots, Remembered, Accounted, SameFor, WorkEnabled;
    assert w < |s.workers| by { WorkerExists(s, w, a); }
    if s.workers[w].Pushing? || s.workers[w].Sending? {
      OwnJob(s, w);
    }
    forall c: Client
      ensures Remembered(WorkNext(s, w, a), c) && Accounted(WorkNext(s, w, a), c)
    {
      assert Remembered(s, c) && Accounted(s, c);
      ChainedFor(s, w, a, c);
    }
  }

  lemma WorkerExists(s: System, w: nat, a: Action)
    requires WorkEnabled(s, w, a)
    ensures w < |s.workers|
  {}

  lemma ChainedFor(s: System, w: nat, a: Action, c: Client)
    requires Slots(s) && WorkEnabled(s, w, a) && Remembered(s, c) && Accounted(s, c)
    requires s.workers[w].Pushing? || s.workers[w].Sending? ==> s.workers[w].job.client == s.workers[w].client
    ensures Remembered(WorkNext(s, w, a), c) && Accounted(WorkNext(s, w, a), c)
  {
    if ClientOf(s.workers[w]) == Some(c) {
      assert Holds(s, w, c);
      hide WorkNext, Slots, Remembered, Accounted;
      OwnStep(s, w, a, c);
    } else if a.Take? && s.pollQ[0] == c {
      TakeStep(s, w, c);
    } else {
      if !a.Take? {
        NextClient(s, w, a);
      }
      DataOfOthers(s, w, a, c);
      OtherClient(s, w, a, c);
      hide WorkNext, Slots, Remembered, Accounted, SameFor;
      SameForAccount(s, WorkNext(s, w, a), c);
    }
  }

  lemma ChainedSame(s: System, s': System)
    requires Chained(s) && s' == s.(inflight := s'.inflight, pollQ := s'.pollQ, ticker := s'.ticker, stop := s'.stop,
                                    pushQ := s'.pushQ, pushers := s'.pushers, taken := s'.taken,
                                    pollPanic := s'.pollPanic)
    ensures Chained(s')
  {
    SameWorkersHeld(s, s');
    forall c: Client
      ensures Remembered(s', c) && Accounted(s', c)
    {
      assert Remembered(s, c) && Accounted(s, c);
      assert SameFor(s, s', c);
      SameForAccount(s, s', c);
    }
  }

  lemma ChainedPush(s: System, p: nat, y: PushStep)
    requires Chained(s) && PushEnabled(s, p, y)
    ensures Chained(PushNext(s, p, y))
  {
    hide Chained, PushFieldNil, PushQueueClosed;
    ChainedSame(s, PushNext(s, p, y));
  }

  lemma ChainedStep(s: System, t: Step)
    requires Slots(s) && Chained(s) && Enabled(s, t)
    ensures Chained(Next(s, t))
  {
    hide Chained, Slots;
    match t {
      case Work(w, a) => ChainedWork(s, w, a);
      case Check(tick) =>
        PollerStop.TickFrame(s, tick);
        hide TickNextState;
        ChainedSame(s, TickNextState(s, tick));
      case Stopping(x) => ChainedSame(s, StopNext(s, x));
      case Push(p, y) => ChainedPush(s, p, y);
    }
  }

  lemma ChainedInit(s: System)
    requires Init(s)
    ensures Chained(s)
  {
    forall c: Client
      ensures Remembered(s, c) && Accounted(s, c)
    {
      NobodyHolds(s, c);
      assert SubmittedOf(s.submitted, c) == [];
      if c in s.prev {
        assert HistoryOf(s, c) == [Base(s.prev[c])];
        OneBase(s.prev[c]);
      } else {
        assert HistoryOf(s, c) == [];
      }
      hide Held, Holds, SubmittedOf, Pushes, Linked, HistoryOf;
    }
  }

  lemma NobodyHolds(s: System, c: Client)
    requires forall w :: 0 <= w < |s.workers| ==> s.workers[w] == Waiting
    ensures !Held(s, c) && forall w: nat :: !Holds(s, w, c)
  {}

  lemma OneBase(b: Bubbles)
    ensures Linked([]) && Linked([Base(b)]) && Pushes([Base(b)]) == [] && Known([Base(b)]) == Some(b)
  {
    PushesSnoc([], Base(b));
    assert [] + [Base(b)] == [Base(b)];
  }

  lemma {:induction false} ChainedAlways(ss: seq<System>, ts: seq<Step>, i: nat)
    requires Execution(ss, ts) && i < |ss|
    ensures Chained(ss[i]) && Slots(ss[i])
  {
    hide Next, Enabled, Chained, Slots;
    SlotsAlways(ss, ts, i);
    if i > 0 {
      StepAt(ss, ts, i - 1);
      ChainedAlways(ss, ts, i - 1);
      ChainedStep(ss[i - 1], ts[i - 1]);
    } else {
      ChainedInit(ss[0]);
    }
  }
}
