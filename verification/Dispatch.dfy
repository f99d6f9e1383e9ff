/** Which listeners an arrived message reaches, and what that means for the requests that wait for responses. */
module Dispatch {
  import opened Common
  import opened WireFormat
  import opened Sender
  import opened Receiver
  import opened Delivery
  import Events

  // ---------- the event of each kind ----------

  /** A request is announced only for payload type 1, a response for 2, a call for 3. */
  ghost predicate TypeFits(e: Event) {
    match e
    case Request(f) => f.payloadType == 1
    case Response(f) => f.payloadType == 2
    case Call(f) => f.payloadType == 3
    case _ => true
  }

  /** Whatever frames arrive: no event is announced for a payload of another type. */
  lemma {:induction false} TypesAlwaysFit(fs: seq<Frame>)
    ensures forall e :: e in Run(fs).1 ==> TypeFits(e)
  {
    hide Added;
    if fs != [] {
      TypesAlwaysFit(fs[..|fs| - 1]);
    }
  }

  function Count(evs: seq<Event>, e: Event): nat { multiset(evs)[e] }

  lemma CountAppend(a: seq<Event>, b: seq<Event>, e: Event)
    ensures Count(a + b, e) == Count(a, e) + Count(b, e)
  {}

  lemma {:induction false} CountFor(evs: seq<Event>, e: Event)
    ensures Count(EventsFor(evs, EventKey(e)), e) == Count(evs, e)
  {
    if evs != [] {
      var before, last := evs[..|evs| - 1], evs[|evs| - 1];
      CountFor(before, e);
      assert evs == before + [last];
      CountAppend(before, [last], e);
      CountAppend(EventsFor(before, EventKey(e)), if EventKey(last) == EventKey(e) then [last] else [], e);
    }
  }

  lemma WholeIs(m: Message)
    requires m.Valid() && m.data != []
    ensures var w := Whole(m);
            && w.payloadType == m.kind && w.traceId == m.traceId && w.payload == m.data && KeyOf(w) == MessageKey(m)
            && w.spanId == m.spanId && w.contentType == m.contentType && w.dataType == m.dataType
            && w.payloadLength == w.totalLength == |m.data| && w.opCode == 1
  {
    CountBounds(m);
    FrameFields(m, m.Count() - 1);
    hide FrameAt;
  }

  /** EACH MESSAGE REACHES ITS LISTENERS ONCE. If the frames of any messages with distinct keys arrive once each, in any
      order and interleaving: a message of kind 1 comes out exactly once as a request, of kind 2 as a response, of kind 3
      as a call; each one, of whatever kind, exactly once as data; and no message comes out as anything else. */
  lemma {:induction false} DispatchedOnce(ms: seq<Message>, fs: seq<Frame>, j: nat)
    requires Family(ms) && multiset(fs) == multiset(AllFrames(ms)) && j < |ms|
    ensures var evs, w := Run(fs).1, Whole(ms[j]);
            && w.payload == ms[j].data && w.traceId == ms[j].traceId
            && w.contentType == ms[j].contentType && w.dataType == ms[j].dataType
            && Count(evs, Data(w)) == 1
            && Count(evs, Request(w)) == (if ms[j].kind == 1 then 1 else 0)
            && Count(evs, Response(w)) == (if ms[j].kind == 2 then 1 else 0)
            && Count(evs, Call(w)) == (if ms[j].kind == 3 then 1 else 0)
            && forall e :: e in evs && EventKey(e) == MessageKey(ms[j]) ==>
                 !e.Error? && e.full == w && TypeFits(e)
  {
    hide Run, Whole, EventsFor, EventsOf, Count, TypeFits, AllFrames;
    var evs, w := Run(fs).1, Whole(ms[j]);
    DeliveredExactlyOnce(ms, fs);
    WholeIs(ms[j]);
    TypesAlwaysFit(fs);
    EventsOfOne(w);
    CountFor(evs, Data(w));
    CountFor(evs, Request(w));
    CountFor(evs, Response(w));
    CountFor(evs, Call(w));
    forall e | e in evs && EventKey(e) == MessageKey(ms[j])
      ensures !e.Error? && e.full == w
    {
      CountFor(evs, e);
      Occurs(evs, e);
      Occurs(EventsFor(evs, MessageKey(ms[j])), e);
    }
  }

  lemma Occurs(evs: seq<Event>, e: Event)
    ensures e in evs <==> Count(evs, e) > 0
  {}

  lemma EventsOfOne(w: Frame)
    ensures var evs := EventsOf(w);
            && Count(evs, Data(w)) == 1
            && Count(evs, Request(w)) == (if w.payloadType == 1 then 1 else 0)
            && Count(evs, Response(w)) == (if w.payloadType == 2 then 1 else 0)
            && Count(evs, Call(w)) == (if w.payloadType == 3 then 1 else 0)
            && forall e :: e in evs ==> !e.Error? && e.full == w
  {}

  /** Every response announced is one of the messages. */
  lemma {:induction false} ResponsesAreMessages(ms: seq<Message>, fs: seq<Frame>, f: Frame) returns (j: nat)
    requires Family(ms) && multiset(fs) == multiset(AllFrames(ms)) && Response(f) in Run(fs).1
    ensures j < |ms| && f == Whole(ms[j]) && ms[j].kind == 2
  {
    DeliveredExactlyOnce(ms, fs);
    TypesAlwaysFit(fs);
    hide Run, Whole, EventsFor;
    var evs := Run(fs).1;
    CountFor(evs, Response(f));
    assert Response(f) in EventsFor(evs, KeyOf(f));
    j :| 0 <= j < |ms| && MessageKey(ms[j]) == KeyOf(f);
    DispatchedOnce(ms, fs, j);
    assert Response(f) in evs && EventKey(Response(f)) == MessageKey(ms[j]);
  }

  // ---------- errors ----------

  /** A frame whose length field does not fit is announced as an error, and its session is gone. */
  lemma {:induction false} BrokenLength(fs: seq<Frame>, f: Frame)
    requires f.payloadLength != |f.payload|
    ensures Run(fs + [f]) == (Run(fs).0 - {KeyOf(f)}, Run(fs).1 + [Error(KeyOf(f))])
  {
    assert (fs + [f])[..|fs|] == fs;
  }

  /** As long as nothing was announced, the session holds the frames that came. */
  lemma {:induction false} SilentSoFar(m: Message, fs: seq<Frame>)
    requires m.Valid() && m.data != [] && (forall f :: f in fs ==> f in FramesOf(m)) && Run(fs).1 == []
    ensures Run(fs).0.Keys <= {MessageKey(m)}
    ensures var s := Opened(Run(fs).0, MessageKey(m)); s.chunks == fs && Sound(s, m)
  {
    hide FrameAt, FramesOf, EventsOf, Whole;
    if fs == [] {
      FreshIsSound(m);
    } else {
      var before, f := fs[..|fs| - 1], fs[|fs| - 1];
      assert fs == before + [f];
      SilentSoFar(m, before);
      InFrames(m, f);
      AddedExactly(Opened(Run(before).0, MessageKey(m)), m, f);
      hide Added, Sound;
      NothingIsSilent(Whole(m));
    }
  }

  lemma FreshIsSound(m: Message)
    requires m.Valid() && m.data != []
    ensures Sound(FRESH, m)
  {}

  lemma NothingIsSilent(w: Frame)
    ensures EventsOf(w) != []
  {}

  /** THE FIRST THING ANNOUNCED. With frames of one message arriving, in any order and with repetitions, and nothing announced
      so far, the next one announces the message when all frames are there once each, an error when as many as it has
      frames have come, the last frame and a repetition among them, and nothing otherwise. Either announcement leaves
      no session. */
  lemma {:induction false} FirstAnnouncement(m: Message, fs: seq<Frame>, f: Frame)
    requires m.Valid() && m.data != [] && (forall g :: g in fs ==> g in FramesOf(m)) && f in FramesOf(m) && Run(fs).1 == []
    ensures var all := fs + [f];
            if multiset(all) == multiset(FramesOf(m)) then Run(all) == (map[], EventsOf(Whole(m)))
            else if |all| == m.Count() && Last(m) in all then Run(all) == (map[], [Error(MessageKey(m))])
            else Run(all).1 == []
  {
    hide FrameAt, FramesOf, EventsOf, Whole, Last, Run, Added, Sound;
    SilentSoFar(m, fs);
    InFrames(m, f);
    var st, k := Run(fs).0, MessageKey(m);
    AddedExactly(Opened(st, k), m, f);
    AfterSilence(fs, f);
    assert st - {k} == map[];
  }

  lemma AfterSilence(fs: seq<Frame>, f: Frame)
    requires Run(fs).1 == []
    ensures Run(fs + [f]) == OnFrame(Run(fs).0, f)
  {
    hide OnFrame;
    assert (fs + [f])[..|fs|] == fs;
    var evs := OnFrame(Run(fs).0, f).1;
    assert [] + evs == evs;
  }

  // ---------- up to the requests ----------

  type Answer = (nat, seq<byte>)

  type Op = Events.Op<seq<byte>>

  /** What the 'response' listeners get to see of a run: trace ids and payloads, in order. */
  function Answers(evs: seq<Event>): seq<Answer> {
    if evs == [] then []
    else
      var e := evs[|evs| - 1];
      Answers(evs[..|evs| - 1]) + (if e.Response? then [(e.full.traceId as nat, e.full.payload)] else [])
  }

  /** The responses among the operations on the request table. */
  function Given(ops: seq<Op>): seq<Answer> {
    if ops == [] then []
    else
      var op := ops[|ops| - 1];
      Given(ops[..|ops| - 1]) + (if op.OpResponse? then [(op.id, op.payload)] else [])
  }

  lemma {:induction false} AnswersAre(evs: seq<Event>, a: Answer)
    ensures a in Answers(evs) <==> exists e :: e in evs && e.Response? && a == (e.full.traceId as nat, e.full.payload)
  {
    if evs != [] {
      AnswersAre(evs[..|evs| - 1], a);
      assert evs == evs[..|evs| - 1] + [evs[|evs| - 1]];
    }
  }

  lemma {:induction false} GivenAre(ops: seq<Op>, a: Answer)
    ensures a in Given(ops) <==> exists u :: 0 <= u < |ops| && ops[u].OpResponse? && a == (ops[u].id, ops[u].payload)
  {
    if ops != [] {
      var before := ops[..|ops| - 1];
      GivenAre(before, a);
      if u :| 0 <= u < |ops| && ops[u].OpResponse? && a == (ops[u].id, ops[u].payload) {
        assert u < |before| ==> before[u] == ops[u];
      }
    }
  }

  /** How many of them carry this id. */
  function Times(answers: seq<Answer>, id: nat): nat {
    if answers == [] then 0
    else Times(answers[..|answers| - 1], id) + (if answers[|answers| - 1].0 == id then 1 else 0)
  }

  lemma TimesSnoc(answers: seq<Answer>, a: Answer, id: nat)
    ensures Times(answers + [a], id) == Times(answers, id) + (if a.0 == id then 1 else 0)
  {
    assert (answers + [a])[..|answers|] == answers;
  }

  /** The announced responses with this id are those of the session with this id and type 2. */
  lemma {:induction false} TimesOfKey(evs: seq<Event>, id: u32)
    requires forall e :: e in evs ==> TypeFits(e)
    ensures Times(Answers(evs), id as nat) == Times(Answers(EventsFor(evs, (id, 2))), id as nat)
  {
    if evs != [] {
      hide Answers, Times, EventsFor;
      var before, e := evs[..|evs| - 1], evs[|evs| - 1];
      var mine := EventsFor(before, (id, 2));
      TimesOfKey(before, id);
      assert before + [e] == evs;
      ForStep(before, e, (id, 2));
      AnswersStep(before, e, id as nat);
      if EventKey(e) == (id, 2) {
        AnswersStep(mine, e, id as nat);
      } else {
        assert TypeFits(e);
      }
    }
  }

  lemma ForStep(evs: seq<Event>, e: Event, k: Key)
    ensures EventsFor(evs + [e], k) == if EventKey(e) == k then EventsFor(evs, k) + [e] else EventsFor(evs, k)
  {
    assert (evs + [e])[..|evs|] == evs;
  }

  lemma AnswersStep(evs: seq<Event>, e: Event, id: nat)
    ensures Times(Answers(evs + [e]), id)
            == Times(Answers(evs), id) + (if e.Response? && e.full.traceId as nat == id then 1 else 0)
  {
    assert (evs + [e])[..|evs|] == evs;
    if e.Response? {
      TimesSnoc(Answers(evs), (e.full.traceId as nat, e.full.payload), id);
    } else {
      assert Answers(evs + [e]) == Answers(evs);
    }
  }

  lemma TimesOfOne(w: Frame)
    requires w.payloadType == 2
    ensures Times(Answers(EventsOf(w)), w.traceId as nat) == 1
  {
    assert EventsOf(w) == [Response(w), Data(w)];
    assert [Response(w), Data(w)][..1] == [Response(w)] && [Response(w)][..0] == [];
    assert Answers([Response(w)]) == [(w.traceId as nat, w.payload)];
    assert Answers([Response(w), Data(w)]) == [(w.traceId as nat, w.payload)];
  }

  /** A message of kind 2 is the one response with its trace id. */
  lemma {:induction false} AnsweredOnce(ms: seq<Message>, fs: seq<Frame>, j: nat)
    requires Family(ms) && multiset(fs) == multiset(AllFrames(ms)) && j < |ms| && ms[j].kind == 2
    ensures Times(Answers(Run(fs).1), ms[j].traceId as nat) == 1
    ensures (ms[j].traceId as nat, ms[j].data) in Answers(Run(fs).1)
  {
    hide Run, Whole, EventsFor, EventsOf, Count, TypeFits, AllFrames, Answers;
    var evs, w := Run(fs).1, Whole(ms[j]);
    DeliveredExactlyOnce(ms, fs);
    DispatchedOnce(ms, fs, j);
    Occurs(evs, Response(w));
    TypesAlwaysFit(fs);
    TimesOfKey(evs, ms[j].traceId);
    WholeIs(ms[j]);
    TimesOfOne(w);
    AnswersAre(evs, (w.traceId as nat, w.payload));
  }

  predicate IsAnswer(op: Op, id: nat) { op.OpResponse? && op.id == id }

  lemma GivenStep(ops: seq<Op>, id: nat)
    requires ops != []
    ensures Times(Given(ops), id)
            == Times(Given(ops[..|ops| - 1]), id) + (if IsAnswer(ops[|ops| - 1], id) then 1 else 0)
  {
    var op := ops[|ops| - 1];
    if op.OpResponse? {
      TimesSnoc(Given(ops[..|ops| - 1]), (op.id, op.payload), id);
    } else {
      assert Given(ops) == Given(ops[..|ops| - 1]);
    }
  }

  /** If one of the operations only is a response with this id, all others are none. */
  lemma {:induction false} OnlyOne(ops: seq<Op>, id: nat, u: nat, v: nat)
    requires u < |ops| && v < |ops| && u != v && Times(Given(ops), id) <= 1
    requires IsAnswer(ops[u], id)
    ensures !IsAnswer(ops[v], id)
    decreases |ops|
  {
    var before := ops[..|ops| - 1];
    GivenStep(ops, id);
    if u < |before| && v < |before| {
      OnlyOne(before, id, u, v);
    } else if IsAnswer(ops[v], id) {
      AtLeastOne(before, id, if u < v then u else v);
    }
  }

  lemma {:induction false} AtLeastOne(ops: seq<Op>, id: nat, u: nat)
    requires u < |ops| && IsAnswer(ops[u], id)
    ensures Times(Given(ops), id) >= 1
  {
    var before := ops[..|ops| - 1];
    GivenStep(ops, id);
    if u < |before| {
      AtLeastOne(before, id, u);
    }
  }

  lemma {:induction false} ResolvedStays(ops: seq<Op>, n: nat, m: nat, a: Answer)
    requires n <= m <= |ops| && a in Events.After(ops, n).resolved
    ensures a in Events.After(ops, m).resolved
    decreases m
  {
    hide Events.Apply, Events.Resolves;
    if n < m {
      ResolvedStays(ops, n, m - 1, a);
      Events.ResolvedOnce(ops, m, 0);
    }
  }

  /** Request id was issued before operation u. */
  ghost predicate IssuedBefore(ops: seq<Op>, u: nat, id: nat)
    requires u < |ops|
  {
    exists t: nat :: t < u && Events.IssuedBy(ops, t, id)
  }

  /** FROM THE FRAMES TO THE PROMISE. Let the operations on the request table be any requests, timeouts and woken code, with
      exactly the responses the receiver announces. Then a message of kind 2 resolves the request with its trace id, with
      its own bytes and once, provided that request was issued before the response came and did not time out. */
  lemma {:induction false} ResponseResolvesRequest(ms: seq<Message>, fs: seq<Frame>, j: nat, ops: seq<Op>)
    requires Family(ms) && multiset(fs) == multiset(AllFrames(ms)) && j < |ms| && ms[j].kind == 2
    requires Given(ops) == Answers(Run(fs).1)
    requires Events.OpTimeout(ms[j].traceId as nat) !in ops
    requires forall u :: 0 <= u < |ops| && IsAnswer(ops[u], ms[j].traceId as nat) ==>
               IssuedBefore(ops, u, ms[j].traceId as nat)
    ensures var id, end := ms[j].traceId as nat, Events.After(ops, |ops|);
            (id, ms[j].data) in end.resolved && Events.TimesResolved(end.resolved, id) == 1
  {
    hide Run, AllFrames, Events.Apply, Events.IssuedBy, Events.Resolves, Answers;
    var id, data := ms[j].traceId as nat, ms[j].data;
    AnsweredOnce(ms, fs, j);
    GivenAre(ops, (id, data));
    var u :| 0 <= u < |ops| && ops[u].OpResponse? && (id, data) == (ops[u].id, ops[u].payload);
    assert IsAnswer(ops[u], id) && IssuedBefore(ops, u, id);
    var t: nat :| t < u && Events.IssuedBy(ops, t, id);
    forall v | t < v < u
      ensures !Events.Ends(ops[v], id)
    {
      OnlyOne(ops, id, u, v);
      assert ops[v] in ops;
    }
    hide Given;
    ResolvesNow(ops, id, t, u);
    ResolvedStays(ops, u + 1, |ops|, (id, data));
    Events.ResolvedOnce(ops, |ops|, id);
    OnceIsOnce(Events.After(ops, |ops|).resolved, (id, data));
  }

  /** A response to an outstanding request resolves it. */
  lemma ResolvesNow(ops: seq<Op>, id: nat, t: nat, u: nat)
    requires t < u < |ops| && Events.IssuedBy(ops, t, id) && (forall v :: t < v < u ==> !Events.Ends(ops[v], id))
    requires IsAnswer(ops[u], id)
    ensures (id, ops[u].payload) in Events.After(ops, u + 1).resolved
  {
    hide Events.Apply, Events.IssuedBy, Events.Ends;
    Events.OutstandingIff(ops, u, id);
    Events.ResolvedOnce(ops, u + 1, id);
  }

  lemma {:induction false} OnceIsOnce(resolved: seq<Answer>, a: Answer)
    requires a in resolved
    ensures Events.TimesResolved(resolved, a.0) >= 1
  {
    if resolved[|resolved| - 1] != a {
      OnceIsOnce(resolved[..|resolved| - 1], a);
    }
  }
}
