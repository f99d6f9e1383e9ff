/** What the receiver makes of the frames of many messages: lossless under any interleaving, and never wrong under
    loss, duplication and reordering. */
module Delivery {
  import opened Common
  import opened WireFormat
  import opened Sender
  import opened Receiver

  function MessageKey(m: Message): Key { (m.traceId, m.kind) }

  /** The reassembled chunk a listener should see: the last frame with the whole byte string as its payload. */
  function Whole(m: Message): Frame
    requires m.Valid() && m.data != []
  {
    CountBounds(m);
    FrameAt(m, m.Count() - 1).(payload := m.data, payloadLength := |m.data|)
  }

  function Last(m: Message): Frame
    requires m.Valid() && m.data != []
  {
    CountBounds(m);
    FrameAt(m, m.Count() - 1)
  }

  /** Messages that may be in flight together: not empty, and no two with the same (traceId, type). */
  ghost predicate Family(ms: seq<Message>) {
    && (forall i :: 0 <= i < |ms| ==> ms[i].Valid() && ms[i].data != [])
    && (forall i, j :: 0 <= i < j < |ms| ==> MessageKey(ms[i]) != MessageKey(ms[j]))
  }

  // ---------- the frames of one message ----------

  lemma FrameFacts(m: Message, i: nat)
    requires m.Valid() && i < m.Count()
    ensures var f := FrameAt(m, i);
            && KeyOf(f) == MessageKey(m) && f.seqId == i + 1 && f.payloadLength == |f.payload|
            && f.totalLength == |m.data| && (f.opCode == FINISHED <==> i + 1 == m.Count())
            && f.payload == m.data[Start(m, i)..Start(m, i + 1)]
  {
    CountBounds(m);
  }

  lemma InFrames(m: Message, f: Frame)
    requires m.Valid() && f in FramesOf(m)
    ensures 1 <= f.seqId <= m.Count() && f == FrameAt(m, f.seqId - 1) == FramesOf(m)[f.seqId - 1]
    ensures KeyOf(f) == MessageKey(m) && f.payloadLength == |f.payload| && f.totalLength == |m.data|
    ensures f.opCode == FINISHED <==> f.seqId == m.Count()
  {
    var i :| 0 <= i < m.Count() && f == FramesOf(m)[i];
    FrameFacts(m, i);
  }

  lemma FramesDistinct(m: Message)
    requires m.Valid()
    ensures forall f :: f in FramesOf(m) ==> multiset(FramesOf(m))[f] == 1
  {
    hide FrameAt;
    var fs := FramesOf(m);
    forall f | f in fs
      ensures multiset(fs)[f] == 1
    {
      InFrames(m, f);
      var i := f.seqId - 1;
      forall j | 0 <= j < |fs| && j != i
        ensures fs[j] != f
      {
        FrameFacts(m, j);
      }
      OccursOnce(fs, i);
    }
  }

  lemma OccursOnce(s: seq<Frame>, i: nat)
    requires i < |s| && forall j :: 0 <= j < |s| && j != i ==> s[j] != s[i]
    ensures multiset(s)[s[i]] == 1
  {
    assert s == s[..i] + [s[i]] + s[i + 1..];
    assert s[i] !in s[..i] && s[i] !in s[i + 1..];
    assert multiset(s) == multiset(s[..i]) + multiset{s[i]} + multiset(s[i + 1..]);
  }

  // ---------- one session, any frames of its message ----------

  ghost predicate Among(chunks: seq<Frame>, m: Message)
    requires m.Valid()
  {
    forall c :: c in chunks ==> c in FramesOf(m)
  }

  /** What every session for m looks like, whatever was lost, repeated or reordered. */
  ghost predicate Sound(s: SessionState, m: Message)
    requires m.Valid() && m.data != []
  {
    && Among(s.chunks, m)
    && (s.finishChunk.Some? <==> Last(m) in s.chunks)
    && (s.finishChunk.None? ==> s.count == 0)
    && (s.finishChunk.Some? ==> s.count == m.Count() && s.finishChunk.value == Last(m))
  }

  lemma {:induction false} GatherSound(chunks: seq<Frame>, m: Message, n: nat)
    requires m.Valid() && Among(chunks, m) && n <= m.Count()
    ensures Gather(chunks, n).Some? <==> forall i :: 0 <= i < n ==> FramesOf(m)[i] in chunks
    ensures Gather(chunks, n).Some? ==> Gather(chunks, n).value == m.data[..Start(m, n)]
  {
    hide FrameAt, Find;
    if n > 0 {
      GatherSound(chunks, m, n - 1);
      FrameFacts(m, n - 1);
      var c := Find(chunks, n);
      if c.Some? {
        InFrames(m, c.value);
        assert c.value == FramesOf(m)[n - 1];
      } else {
        assert FramesOf(m)[n - 1] !in chunks;
      }
    }
  }

  /** Count many chunks hold every frame exactly when they are a rearrangement of the frames: with as many chunks as
      frames, a repeated one leaves no room for another. */
  lemma Pigeonhole(chunks: seq<Frame>, m: Message)
    requires m.Valid() && Among(chunks, m) && |chunks| == m.Count()
    ensures (forall f :: f in FramesOf(m) ==> f in chunks) <==> multiset(chunks) == multiset(FramesOf(m))
  {
    var a, b := multiset(chunks), multiset(FramesOf(m));
    if forall f :: f in FramesOf(m) ==> f in chunks {
      FramesDistinct(m);
      forall f
        ensures b[f] <= a[f]
      {
        if f in b {
          assert f in FramesOf(m) && f in chunks;
        }
      }
      assert b <= a && |a| == |b|;
      assert a == b + (a - b) && |a - b| == 0;
    }
    if a == b {
      forall f | f in FramesOf(m)
        ensures f in chunks
      {
        assert f in b;
        assert f in a;
      }
    }
  }

  /** The exact outcome of one more frame of m in any session for m. A duplicate shows only in the last line: it makes
      the session fail when the count is reached, or wait for ever. */
  lemma {:induction false} AddedExactly(s: SessionState, m: Message, f: Frame)
    requires m.Valid() && m.data != [] && Sound(s, m) && f in FramesOf(m)
    ensures var out, all := Added(s, f).1, s.chunks + [f];
            && (out.Complete? <==> multiset(all) == multiset(FramesOf(m)))
            && (out.Complete? ==> out.full == Whole(m))
            && (out.Failed? <==> |all| == m.Count() && Last(m) in all && multiset(all) != multiset(FramesOf(m)))
            && (out.Quiet? ==> Added(s, f).0.chunks == all && Sound(Added(s, f).0, m))
  {
    hide FrameAt;
    CountBounds(m);
    InFrames(m, f);
    var all := s.chunks + [f];
    FrameFacts(m, m.Count() - 1);
    assert f.opCode == FINISHED <==> f == Last(m);
    var s2 := Note(s, f).(chunks := all);
    assert Sound(s2, m);
    if multiset(all) == multiset(FramesOf(m)) {
      assert |multiset(all)| == |multiset(FramesOf(m))|;
      assert Last(m) == FramesOf(m)[m.Count() - 1];
      assert Last(m) in multiset(all);
    }
    if s2.count == |all| {
      GatherSound(all, m, m.Count());
      Pigeonhole(all, m);
      AllInIff(FramesOf(m), all);
    }
  }

  lemma AllInIff(fs: seq<Frame>, chunks: seq<Frame>)
    ensures (forall i :: 0 <= i < |fs| ==> fs[i] in chunks) <==> (forall f :: f in fs ==> f in chunks)
  {
    if forall f :: f in fs ==> f in chunks {
      forall i | 0 <= i < |fs|
        ensures fs[i] in chunks
      {
        assert fs[i] in fs;
      }
    }
  }

  /** Once a session holds as many chunks as there are frames and has not ended, nothing that still arrives for its
      message ever ends it: the stall is permanent. */
  lemma {:induction false} StallIsPermanent(s: SessionState, m: Message, f: Frame)
    requires m.Valid() && m.data != [] && Sound(s, m) && f in FramesOf(m) && |s.chunks| >= m.Count()
    ensures var (s', out) := Added(s, f); out.Quiet? && Sound(s', m) && |s'.chunks| > m.Count()
  {
    AddedExactly(s, m, f);
    SameSize(s.chunks + [f], FramesOf(m));
  }

  lemma SameSize(a: seq<Frame>, b: seq<Frame>)
    ensures multiset(a) == multiset(b) ==> |a| == |b|
  {
    assert |multiset(a)| == |a| && |multiset(b)| == |b|;
  }

  // ---------- runs over any deliveries ----------

  lemma RunSnoc(fs: seq<Frame>, f: Frame)
    ensures Run(fs + [f]) == (OnFrame(Run(fs).0, f).0, Run(fs).1 + OnFrame(Run(fs).0, f).1)
  {
    hide OnFrame;
    assert (fs + [f])[..|fs|] == fs;
  }

  function AllFrames(ms: seq<Message>): seq<Frame>
    requires forall i :: 0 <= i < |ms| ==> ms[i].Valid()
  {
    if ms == [] then [] else AllFrames(ms[..|ms| - 1]) + FramesOf(ms[|ms| - 1])
  }

  lemma {:induction false} FrameOwner(ms: seq<Message>, f: Frame) returns (j: nat)
    requires forall i :: 0 <= i < |ms| ==> ms[i].Valid()
    requires f in AllFrames(ms)
    ensures j < |ms| && f in FramesOf(ms[j])
  {
    if f in FramesOf(ms[|ms| - 1]) {
      j := |ms| - 1;
    } else {
      j := FrameOwner(ms[..|ms| - 1], f);
    }
  }

  ghost predicate OwnedBy(ms: seq<Message>, j: nat, k: Key, s: SessionState)
    requires Family(ms)
  {
    j < |ms| && MessageKey(ms[j]) == k && Sound(s, ms[j])
  }

  ghost predicate Consistent(ms: seq<Message>, st: Sessions)
    requires Family(ms)
  {
    forall k :: k in st ==> exists j :: OwnedBy(ms, j, k, st[k])
  }

  ghost predicate Genuine(ms: seq<Message>, e: Event)
    requires Family(ms)
  {
    e.Error? || exists j :: 0 <= j < |ms| && e in EventsOf(Whole(ms[j]))
  }

  lemma OpenedSound(ms: seq<Message>, st: Sessions, j: nat)
    requires Family(ms) && Consistent(ms, st) && j < |ms|
    ensures Sound(Opened(st, MessageKey(ms[j])), ms[j])
  {
    var k := MessageKey(ms[j]);
    if k in st {
      var i :| OwnedBy(ms, i, k, st[k]);
      assert i == j;
    }
  }

  lemma ConsistentStep(ms: seq<Message>, st: Sessions, j: nat, f: Frame)
    requires Family(ms) && Consistent(ms, st) && j < |ms| && f in FramesOf(ms[j])
    ensures var (st', evs) := OnFrame(st, f);
            Consistent(ms, st') && forall e :: e in evs ==> Genuine(ms, e)
  {
    hide FrameAt, Added, Sound, Whole;
    var m, k := ms[j], KeyOf(f);
    InFrames(m, f);
    OpenedSound(ms, st, j);
    AddedExactly(Opened(st, k), m, f);
    var (st', evs) := OnFrame(st, f);
    if Added(Opened(st, k), f).1.Quiet? {
      assert OwnedBy(ms, j, k, st'[k]);
    }
    forall l | l in st'
      ensures exists i :: OwnedBy(ms, i, l, st'[l])
    {
      if l != k {
        var i :| OwnedBy(ms, i, l, st[l]);
        assert OwnedBy(ms, i, l, st'[l]);
      }
    }
  }

  /** Loss, duplication and reordering never produce a wrong message: whatever arrives, as long as each arrival is a
      frame some message of the family was cut into, every emitted request, response, call or data event carries a whole
      message. Module Mixing says what is left of this when messages share a (traceId, type). */
  lemma {:induction false} NeverWrong(ms: seq<Message>, fs: seq<Frame>)
    requires Family(ms) && forall f :: f in fs ==> f in AllFrames(ms)
    ensures Consistent(ms, Run(fs).0)
    ensures forall e :: e in Run(fs).1 ==> Genuine(ms, e)
  {
    hide OnFrame, Genuine, Consistent;
    if fs == [] {
      NoSessions(ms);
    } else {
      var before, f := fs[..|fs| - 1], fs[|fs| - 1];
      NeverWrong(ms, before);
      var j := FrameOwner(ms, f);
      ConsistentStep(ms, Run(before).0, j, f);
    }
  }

  lemma NoSessions(ms: seq<Message>)
    requires Family(ms)
    ensures Consistent(ms, map[])
  {}

  function Held(st: Sessions, k: Key, g: Frame): nat {
    multiset(Opened(st, k).chunks)[g]
  }

  lemma EventsOfWhole(m: Message, other: Message)
    requires m.Valid() && m.data != [] && other.Valid() && other.data != []
    ensures multiset(EventsOf(Whole(m)))[Data(Whole(m))] == 1
    ensures MessageKey(m) != MessageKey(other) ==> multiset(EventsOf(Whole(other)))[Data(Whole(m))] == 0
  {
    CountBounds(m);
    CountBounds(other);
    FrameFacts(m, m.Count() - 1);
    FrameFacts(other, other.Count() - 1);
  }

  lemma HeldStep(ms: seq<Message>, st: Sessions, i: nat, f: Frame, j: nat, g: Frame)
    requires Family(ms) && Consistent(ms, st) && i < |ms| && f in FramesOf(ms[i])
    requires j < |ms| && g in FramesOf(ms[j])
    ensures var (st', evs) := OnFrame(st, f);
            multiset(evs)[Data(Whole(ms[j]))] + Held(st', MessageKey(ms[j]), g)
            <= Held(st, MessageKey(ms[j]), g) + (if f == g then 1 else 0)
  {
    hide FrameAt, Added, Sound, Whole, EventsOf;
    var m, k := ms[i], KeyOf(f);
    InFrames(m, f);
    InFrames(ms[j], g);
    OpenedSound(ms, st, i);
    var s := Opened(st, k);
    AddedExactly(s, m, f);
    EventsOfWhole(ms[j], m);
    assert multiset(s.chunks + [f])[g] == multiset(s.chunks)[g] + (if f == g then 1 else 0);
    if Added(s, f).1.Complete? && i == j {
      FramesDistinct(m);
    }
  }

  /** Conservation: a message is emitted at most as often as each single one of its frames was delivered. So a frame
      that is never delivered keeps its message from ever being emitted, and without duplicates it is emitted once at
      most. */
  lemma {:induction false} EmissionsBounded(ms: seq<Message>, fs: seq<Frame>, j: nat, g: Frame)
    requires Family(ms) && forall f :: f in fs ==> f in AllFrames(ms)
    requires j < |ms| && g in FramesOf(ms[j])
    ensures multiset(Run(fs).1)[Data(Whole(ms[j]))] + Held(Run(fs).0, MessageKey(ms[j]), g) <= multiset(fs)[g]
  {
    hide OnFrame, Consistent, Whole, Held;
    if fs == [] {
      NothingHeld(MessageKey(ms[j]), g);
    } else {
      var before, f := fs[..|fs| - 1], fs[|fs| - 1];
      EmissionsBounded(ms, before, j, g);
      NeverWrong(ms, before);
      var i := FrameOwner(ms, f);
      HeldStep(ms, Run(before).0, i, f, j, g);
      assert fs == before + [f];
    }
  }

  lemma NothingHeld(k: Key, g: Frame)
    ensures Held(map[], k, g) == 0
  {}

  // ---------- exactly once, in any order and interleaving ----------

  function Mine(fs: seq<Frame>, k: Key): seq<Frame> {
    if fs == [] then []
    else Mine(fs[..|fs| - 1], k) + (if KeyOf(fs[|fs| - 1]) == k then [fs[|fs| - 1]] else [])
  }

  function EventKey(e: Event): Key {
    match e
    case Error(k) => k
    case Request(f) => KeyOf(f)
    case Response(f) => KeyOf(f)
    case Call(f) => KeyOf(f)
    case Data(f) => KeyOf(f)
  }

  function EventsFor(evs: seq<Event>, k: Key): seq<Event> {
    if evs == [] then []
    else EventsFor(evs[..|evs| - 1], k) + (if EventKey(evs[|evs| - 1]) == k then [evs[|evs| - 1]] else [])
  }

  lemma {:induction false} EventsForAppend(a: seq<Event>, b: seq<Event>, k: Key)
    ensures EventsFor(a + b, k) == EventsFor(a, k) + EventsFor(b, k)
  {
    if b == [] {
      assert a + b == a;
    } else {
      EventsForAppend(a, b[..|b| - 1], k);
      assert (a + b)[..|a + b| - 1] == a + b[..|b| - 1];
    }
  }

  lemma {:induction false} EventsForSame(evs: seq<Event>, k: Key)
    requires forall e :: e in evs ==> EventKey(e) == k
    ensures EventsFor(evs, k) == evs
  {
    if evs != [] {
      EventsForSame(evs[..|evs| - 1], k);
    }
  }

  lemma {:induction false} EventsForOther(evs: seq<Event>, k: Key)
    requires forall e :: e in evs ==> EventKey(e) != k
    ensures EventsFor(evs, k) == []
  {
    if evs != [] {
      EventsForOther(evs[..|evs| - 1], k);
    }
  }

  /** The finish chunk, when there is one, belongs to the session's own key. */
  ghost predicate OwnFinish(st: Sessions) {
    forall k :: k in st && st[k].finishChunk.Some? ==> KeyOf(st[k].finishChunk.value) == k
  }

  lemma StepKeys(st: Sessions, f: Frame)
    requires OwnFinish(st)
    ensures OwnFinish(OnFrame(st, f).0)
    ensures forall e :: e in OnFrame(st, f).1 ==> EventKey(e) == KeyOf(f)
  {}

  ghost predicate SameAt(a: Sessions, b: Sessions, k: Key) {
    (k in a <==> k in b) && Opened(a, k) == Opened(b, k)
  }

  lemma StepLocal(a: Sessions, b: Sessions, f: Frame, k: Key)
    requires SameAt(a, b, k)
    ensures KeyOf(f) == k ==> SameAt(OnFrame(a, f).0, OnFrame(b, f).0, k) && OnFrame(a, f).1 == OnFrame(b, f).1
    ensures KeyOf(f) != k ==> SameAt(OnFrame(a, f).0, b, k)
  {
    hide Added, EventsOf;
  }

  /** Sessions do not interfere: what one key sees is a run over the frames of that key alone. */
  lemma {:induction false} Locality(fs: seq<Frame>, k: Key)
    ensures OwnFinish(Run(fs).0) && OwnFinish(Run(Mine(fs, k)).0)
    ensures SameAt(Run(fs).0, Run(Mine(fs, k)).0, k)
    ensures EventsFor(Run(fs).1, k) == Run(Mine(fs, k)).1
  {
    hide OnFrame, KeyOf, OwnFinish, SameAt, EventsFor;
    if fs == [] {
      NoFinish(k);
    } else {
      var before, f := fs[..|fs| - 1], fs[|fs| - 1];
      Locality(before, k);
      var st, mine := Run(before).0, Mine(before, k);
      var new' := OnFrame(st, f).1;
      StepKeys(st, f);
      EventsForAppend(Run(before).1, new', k);
      StepLocal(st, Run(mine).0, f, k);
      if KeyOf(f) == k {
        assert Mine(fs, k) == mine + [f] && (mine + [f])[..|mine|] == mine;
        EventsForSame(new', k);
        StepKeys(Run(mine).0, f);
      } else {
        assert Mine(fs, k) == mine;
        EventsForOther(new', k);
      }
    }
  }

  lemma NoFinish(k: Key)
    ensures OwnFinish(map[]) && SameAt(map[], map[], k) && EventsFor([], k) == []
  {}

  lemma {:induction false} MineCount(fs: seq<Frame>, k: Key, g: Frame)
    ensures multiset(Mine(fs, k))[g] == if KeyOf(g) == k then multiset(fs)[g] else 0
  {
    if fs != [] {
      MineCount(fs[..|fs| - 1], k, g);
      assert fs == fs[..|fs| - 1] + [fs[|fs| - 1]];
    }
  }

  lemma {:induction false} MineAppend(a: seq<Frame>, b: seq<Frame>, k: Key)
    ensures Mine(a + b, k) == Mine(a, k) + Mine(b, k)
  {
    if b == [] {
      assert a + b == a;
    } else {
      MineAppend(a, b[..|b| - 1], k);
      assert (a + b)[..|a + b| - 1] == a + b[..|b| - 1];
    }
  }

  lemma {:induction false} MineUniform(fs: seq<Frame>, k: Key, own: bool)
    requires forall f :: f in fs ==> (KeyOf(f) == k) == own
    ensures Mine(fs, k) == if own then fs else []
  {
    if fs != [] {
      MineUniform(fs[..|fs| - 1], k, own);
    }
  }

  lemma {:induction false} MineOfAll(ms: seq<Message>, k: Key)
    requires Family(ms)
    ensures forall j :: 0 <= j < |ms| && MessageKey(ms[j]) == k ==> Mine(AllFrames(ms), k) == FramesOf(ms[j])
    ensures (forall j :: 0 <= j < |ms| ==> MessageKey(ms[j]) != k) ==> Mine(AllFrames(ms), k) == []
  {
    hide KeyOf, MessageKey, Mine, FramesOf;
    if ms != [] {
      var rest, m := ms[..|ms| - 1], ms[|ms| - 1];
      LastApart(ms);
      MineOfAll(rest, k);
      hide Family;
      MineOfLast(AllFrames(rest), m, k);
      if MessageKey(m) == k {
        assert forall j :: 0 <= j < |rest| ==> MessageKey(rest[j]) != k;
      }
    } else {
      NoFrames(k);
    }
  }

  lemma NoFrames(k: Key)
    ensures Mine([], k) == []
  {}

  lemma LastApart(ms: seq<Message>)
    requires Family(ms) && ms != []
    ensures var rest, m := ms[..|ms| - 1], ms[|ms| - 1];
            && Family(rest) && m.Valid()
            && forall j :: 0 <= j < |rest| ==> rest[j] == ms[j] && MessageKey(ms[j]) != MessageKey(m)
  {}

  lemma MineOfLast(fs: seq<Frame>, m: Message, k: Key)
    requires m.Valid()
    ensures Mine(fs + FramesOf(m), k) == Mine(fs, k) + if MessageKey(m) == k then FramesOf(m) else []
  {
    hide Mine;
    forall f | f in FramesOf(m)
      ensures KeyOf(f) == MessageKey(m)
    {
      InFrames(m, f);
    }
    hide FramesOf, KeyOf, MessageKey;
    MineUniform(FramesOf(m), k, MessageKey(m) == k);
    MineAppend(fs, FramesOf(m), k);
  }

  /** A proper part of the frames of m, each at most once, never ends the session of m. */
  lemma {:induction false} Partial(m: Message, fs: seq<Frame>)
    requires m.Valid() && m.data != [] && Among(fs, m) && |fs| < m.Count()
    ensures Run(fs).1 == [] && Run(fs).0.Keys <= {MessageKey(m)}
    ensures Sound(Opened(Run(fs).0, MessageKey(m)), m) && Opened(Run(fs).0, MessageKey(m)).chunks == fs
  {
    hide Added, Sound, FrameAt, Last, EventsOf;
    if fs == [] {
      FreshIsSound(m);
    } else {
      var before, f := fs[..|fs| - 1], fs[|fs| - 1];
      assert fs == before + [f];
      Partial(m, before);
      InFrames(m, f);
      var s := Opened(Run(before).0, MessageKey(m));
      AddedExactly(s, m, f);
      SameSize(fs, FramesOf(m));
    }
  }

  lemma FreshIsSound(m: Message)
    requires m.Valid() && m.data != []
    ensures Sound(FRESH, m)
  {}

  /** Any rearrangement of the frames of m: nothing until the last arrival, then the whole message, then no session. */
  lemma {:induction false} Rearranged(m: Message, fs: seq<Frame>)
    requires m.Valid() && m.data != [] && multiset(fs) == multiset(FramesOf(m))
    ensures Run(fs) == (map[], EventsOf(Whole(m)))
  {
    hide Added, Sound, FrameAt, Last, EventsOf, Whole;
    CountBounds(m);
    SameSize(fs, FramesOf(m));
    forall f | f in fs
      ensures f in FramesOf(m)
    {
      assert f in multiset(fs);
    }
    var before, f := fs[..|fs| - 1], fs[|fs| - 1];
    assert fs == before + [f];
    Partial(m, before);
    InFrames(m, f);
    AddedExactly(Opened(Run(before).0, MessageKey(m)), m, f);
    assert Run(before).0 - {MessageKey(m)} == map[];
    assert OnFrame(Run(before).0, f) == (map[], EventsOf(Whole(m)));
    RunSnoc(before, f);
    assert [] + EventsOf(Whole(m)) == EventsOf(Whole(m));
  }

  // ---------- what repetitions do ----------

  function Repeated<T>(s: seq<T>, n: nat): seq<T> {
    if n == 0 then [] else Repeated(s, n - 1) + s
  }

  /** After a run that left no session behind, the receiver starts afresh. */
  lemma {:induction false} RunAfterwards(a: seq<Frame>, b: seq<Frame>)
    requires Run(a).0 == map[]
    ensures Run(a + b) == (Run(b).0, Run(a).1 + Run(b).1)
  {
    hide OnFrame;
    if b == [] {
      assert a + b == a && Run(a).1 + [] == Run(a).1;
    } else {
      var before, f := b[..|b| - 1], b[|b| - 1];
      RunAfterwards(a, before);
      assert a + b == (a + before) + [f] && b == before + [f];
      RunSnoc(a + before, f);
      RunSnoc(before, f);
      var last := OnFrame(Run(before).0, f).1;
      assert Run(a).1 + Run(before).1 + last == Run(a).1 + (Run(before).1 + last);
    }
  }

  /** A message whose frames all arrive n times, one full delivery after the other, is emitted n times. */
  lemma {:induction false} RepeatedMessage(m: Message, n: nat)
    requires m.Valid() && m.data != []
    ensures Run(Repeated(FramesOf(m), n)) == (map[], Repeated(EventsOf(Whole(m)), n))
  {
    hide OnFrame, EventsOf, Whole, FramesOf;
    if n > 0 {
      RepeatedMessage(m, n - 1);
      Rearranged(m, FramesOf(m));
      RunAfterwards(Repeated(FramesOf(m), n - 1), FramesOf(m));
    }
  }

  /** For a message of a single frame every repetition is a full delivery: n deliveries give n emissions. */
  lemma {:induction false} SingleFrameDuplicated(m: Message, n: nat)
    requires m.Valid() && m.Count() == 1
    ensures Run(seq(n, _ => FrameAt(m, 0))) == (map[], Repeated(EventsOf(Whole(m)), n))
  {
    hide Run, FrameAt, EventsOf, Whole;
    CountBounds(m);
    RepeatedMessage(m, n);
    var one := FramesOf(m);
    assert one == [FrameAt(m, 0)];
    RepeatedOne(FrameAt(m, 0), n);
  }

  lemma {:induction false} RepeatedOne<T>(x: T, n: nat)
    ensures Repeated([x], n) == seq(n, _ => x)
  {
    if n > 0 {
      RepeatedOne(x, n - 1);
    }
  }

  lemma {:induction false} RunGrows(a: seq<Frame>, b: seq<Frame>)
    ensures Run(a).1 <= Run(a + b).1
  {
    hide OnFrame;
    if b == [] {
      assert a + b == a;
    } else {
      var before, f := b[..|b| - 1], b[|b| - 1];
      RunGrows(a, before);
      assert a + b == (a + before) + [f];
      RunSnoc(a + before, f);
    }
  }

  lemma {:induction false} SomeOrder(b: multiset<Frame>) returns (fs: seq<Frame>)
    ensures multiset(fs) == b
    decreases |b|
  {
    if |b| == 0 {
      fs := [];
    } else {
      var f :| f in b;
      var rest := SomeOrder(b - multiset{f});
      fs := rest + [f];
    }
  }

  /** How often message m comes out of a run. */
  function Emissions(fs: seq<Frame>, m: Message): nat
    requires m.Valid() && m.data != []
  {
    multiset(Run(fs).1)[Data(Whole(m))]
  }

  /** A bag of deliveries that holds every frame of m twice has an order in which m is emitted twice. */
  lemma TwiceInSomeOrder(m: Message, b: multiset<Frame>) returns (fs: seq<Frame>)
    requires m.Valid() && m.data != [] && forall g :: g in FramesOf(m) ==> b[g] >= 2
    ensures multiset(fs) == b && Emissions(fs, m) >= 2
  {
    hide Run, EventsOf, Whole, FramesOf, FrameAt;
    var one := FramesOf(m);
    var two := Repeated(one, 2);
    FramesDistinct(m);
    forall g: Frame
      ensures multiset(two)[g] <= b[g]
    {
      TwoCopies(one);
      if g in two {
        assert g in one;
      }
    }
    var rest := SomeOrder(b - multiset(two));
    fs := two + rest;
    assert multiset(fs) == multiset(two) + (b - multiset(two)) == b;
    RepeatedMessage(m, 2);
    RunGrows(two, rest);
    TwoEmissions(m, Run(fs).1);
  }

  lemma TwoCopies<T>(one: seq<T>)
    ensures Repeated(one, 2) == one + one && multiset(Repeated(one, 2)) == multiset(one) + multiset(one)
  {
    assert Repeated(one, 1) == Repeated(one, 0) + one == one;
  }

  lemma TwoEmissions(m: Message, evs: seq<Event>)
    requires m.Valid() && m.data != [] && Repeated(EventsOf(Whole(m)), 2) <= evs
    ensures multiset(evs)[Data(Whole(m))] >= 2
  {
    var two := Repeated(EventsOf(Whole(m)), 2);
    TwoCopies(EventsOf(Whole(m)));
    EventsOfWhole(m, m);
    hide EventsOf, Whole;
    assert evs == two + evs[|two|..];
  }

  /** WHEN REPETITIONS CAN SHOW. Over all orders in which a bag of frames may arrive, message j is emitted at most once
      exactly when some frame of it arrives at most once. So any message all of whose frames are repeated can be
      emitted again; a single frame that is not repeated prevents it. */
  lemma EmittedOnceIff(ms: seq<Message>, b: multiset<Frame>, j: nat)
    requires Family(ms) && j < |ms| && forall f :: f in b ==> f in AllFrames(ms)
    ensures (forall fs :: multiset(fs) == b ==> Emissions(fs, ms[j]) <= 1) <==>
            exists g :: g in FramesOf(ms[j]) && b[g] <= 1
  {
    hide Run, FramesOf, Whole, AllFrames, Held;
    if g :| g in FramesOf(ms[j]) && b[g] <= 1 {
      forall fs | multiset(fs) == b
        ensures Emissions(fs, ms[j]) <= 1
      {
        forall f | f in fs
          ensures f in AllFrames(ms)
        {
          assert f in multiset(fs);
        }
        EmissionsBounded(ms, fs, j, g);
      }
    } else {
      var fs := TwiceInSomeOrder(ms[j], b);
    }
  }

  /** A message of one byte, delivered twice, is emitted twice. */
  lemma OneByteTwice()
    ensures var m := Message(7, 8, REQUEST, 0, 0, [42], [1000]);
            && m.Valid() && m.data != [] && m.Count() == 1
            && Emissions([FrameAt(m, 0), FrameAt(m, 0)], m) == 2
  {
    var m := Message(7, 8, REQUEST, 0, 0, [42], [1000]);
    SingleFrameDuplicated(m, 2);
    assert seq(2, _ => FrameAt(m, 0)) == [FrameAt(m, 0), FrameAt(m, 0)];
    TwoCopies(EventsOf(Whole(m)));
    EventsOfWhole(m, m);
    hide Run, FrameAt, EventsOf, Whole;
  }

  /** THE DELIVERY THEOREM. If the frames of any family of messages arrive exactly once each, in any order and
      interleaving, then every message is emitted exactly once with its own bytes, nothing else is emitted, no error
      is, and no session is left behind. */
  lemma {:induction false} DeliveredExactlyOnce(ms: seq<Message>, fs: seq<Frame>)
    requires Family(ms) && multiset(fs) == multiset(AllFrames(ms))
    ensures Run(fs).0 == map[]
    ensures forall j :: 0 <= j < |ms| ==> EventsFor(Run(fs).1, MessageKey(ms[j])) == EventsOf(Whole(ms[j]))
    ensures forall k :: (forall j :: 0 <= j < |ms| ==> MessageKey(ms[j]) != k) ==> EventsFor(Run(fs).1, k) == []
  {
    hide Run, EventsOf, Whole, AllFrames;
    forall k: Key
      ensures k !in Run(fs).0
      ensures (forall j :: 0 <= j < |ms| ==> MessageKey(ms[j]) != k) ==> EventsFor(Run(fs).1, k) == []
      ensures forall j :: 0 <= j < |ms| && MessageKey(ms[j]) == k ==> EventsFor(Run(fs).1, k) == EventsOf(Whole(ms[j]))
    {
      OneKey(ms, fs, k);
    }
    assert Run(fs).0.Keys == {};
  }

  lemma OneKey(ms: seq<Message>, fs: seq<Frame>, k: Key)
    requires Family(ms) && multiset(fs) == multiset(AllFrames(ms))
    ensures k !in Run(fs).0
    ensures (forall j :: 0 <= j < |ms| ==> MessageKey(ms[j]) != k) ==> EventsFor(Run(fs).1, k) == []
    ensures forall j :: 0 <= j < |ms| && MessageKey(ms[j]) == k ==> EventsFor(Run(fs).1, k) == EventsOf(Whole(ms[j]))
  {
    hide OnFrame, EventsOf, Whole, AllFrames, FrameAt;
    Locality(fs, k);
    MineOfAll(ms, k);
    var mine, all := Mine(fs, k), Mine(AllFrames(ms), k);
    forall g: Frame
      ensures multiset(mine)[g] == multiset(all)[g]
    {
      MineCount(fs, k, g);
      MineCount(AllFrames(ms), k, g);
    }
    assert multiset(mine) == multiset(all);
    if j :| 0 <= j < |ms| && MessageKey(ms[j]) == k {
      Rearranged(ms[j], mine);
      forall i | 0 <= i < |ms| && MessageKey(ms[i]) == k
        ensures i == j
      {}
    } else {
      SameSize(mine, all);
      assert Run(mine) == (map[], []);
    }
  }

  // ---------- the same on the wire ----------

  ghost predicate Readable(bins: seq<seq<byte>>) {
    forall i :: 0 <= i < |bins| ==> Decode(bins[i]).Ok?
  }

  function Decoded(bins: seq<seq<byte>>): (fs: seq<Frame>)
    requires Readable(bins)
    ensures |fs| == |bins|
  {
    if bins == [] then [] else Decoded(bins[..|bins| - 1]) + [Decode(bins[|bins| - 1]).value]
  }

  /** The byte strings sendHmProtocol sends for each message, one message after the other. */
  function AllSent(ms: seq<Message>): seq<seq<byte>>
    requires Family(ms)
  {
    if ms == [] then []
    else AllSent(ms[..|ms| - 1]) + Encoded(FramesOf(ms[|ms| - 1]))
  }

  function Encoded(fs: seq<Frame>): (bins: seq<seq<byte>>)
    ensures |bins| == |fs|
  {
    if fs == [] then [] else Encoded(fs[..|fs| - 1]) + [Encode(fs[|fs| - 1])]
  }

  /** ... which are the results of the send loop. */
  lemma {:induction false} SentAreEncoded(m: Message, n: nat)
    requires m.Valid() && n <= m.Count()
    ensures forall i :: 0 <= i < n ==> Wire(m, Side, n)[i] == Ok(Encoded(FramesOf(m)[..n])[i])
  {
    hide Encode, FrameAt;
    if n > 0 {
      SentAreEncoded(m, n - 1);
      assert FramesOf(m)[..n][..n - 1] == FramesOf(m)[..n - 1];
    }
  }

  lemma {:induction false} DecodedEncoded(fs: seq<Frame>)
    ensures Readable(Encoded(fs)) && Decoded(Encoded(fs)) == fs
  {
    hide Encode, Decode;
    if fs != [] {
      var before, f := fs[..|fs| - 1], fs[|fs| - 1];
      DecodedEncoded(before);
      DecodeEncode(f);
      DecodedSnoc(Encoded(before), Encode(f));
      assert before + [f] == fs;
    }
  }

  lemma DecodedSnoc(bins: seq<seq<byte>>, b: seq<byte>)
    requires Readable(bins) && Decode(b).Ok?
    ensures Readable(bins + [b]) && Decoded(bins + [b]) == Decoded(bins) + [Decode(b).value]
  {
    hide Decode;
    assert (bins + [b])[..|bins|] == bins;
  }

  lemma {:induction false} EncodedAppend(a: seq<Frame>, b: seq<Frame>)
    ensures Encoded(a + b) == Encoded(a) + Encoded(b)
  {
    hide Encode;
    if b == [] {
      assert a + b == a;
    } else {
      EncodedAppend(a, b[..|b| - 1]);
      assert (a + b)[..|a + b| - 1] == a + b[..|b| - 1];
    }
  }

  lemma {:induction false} AllSentEncoded(ms: seq<Message>)
    requires Family(ms)
    ensures AllSent(ms) == Encoded(AllFrames(ms))
  {
    if ms != [] {
      AllSentEncoded(ms[..|ms| - 1]);
      EncodedAppend(AllFrames(ms[..|ms| - 1]), FramesOf(ms[|ms| - 1]));
    }
  }

  lemma {:induction false} DecodedCount(bins: seq<seq<byte>>, g: Frame)
    requires Readable(bins)
    ensures multiset(Decoded(bins))[g] == multiset(bins)[Encode(g)]
  {
    hide Encode, Decode;
    if bins != [] {
      var before, b := bins[..|bins| - 1], bins[|bins| - 1];
      DecodedCount(before, g);
      DecodeEncode(g);
      EncodeDecode(b);
      assert bins == before + [b];
      assert Decoded(bins) == Decoded(before) + [Decode(b).value];
    }
  }

  lemma ReadableIff(a: seq<seq<byte>>, b: seq<seq<byte>>)
    requires multiset(a) == multiset(b) && Readable(b)
    ensures Readable(a)
  {
    hide Decode;
    forall i | 0 <= i < |a|
      ensures Decode(a[i]).Ok?
    {
      assert a[i] in multiset(a);
      assert a[i] in b;
    }
  }

  /** End to end: the byte strings of any family of messages, permuted and interleaved at will, come out as exactly
      those messages. */
  lemma {:induction false} WireDelivered(ms: seq<Message>, bins: seq<seq<byte>>)
    requires Family(ms) && multiset(bins) == multiset(AllSent(ms))
    ensures Readable(bins) && Run(Decoded(bins)).0 == map[]
    ensures forall j :: 0 <= j < |ms| ==>
              EventsFor(Run(Decoded(bins)).1, MessageKey(ms[j])) == EventsOf(Whole(ms[j]))
    ensures forall k :: (forall j :: 0 <= j < |ms| ==> MessageKey(ms[j]) != k) ==>
              EventsFor(Run(Decoded(bins)).1, k) == []
  {
    hide Encode, Decode, Run, EventsOf, Whole, AllSent, AllFrames, EventsFor, Readable;
    var all := AllFrames(ms);
    AllSentEncoded(ms);
    DecodedEncoded(all);
    ReadableIff(bins, Encoded(all));
    forall g: Frame
      ensures multiset(Decoded(bins))[g] == multiset(all)[g]
    {
      DecodedCount(bins, g);
      DecodedCount(Encoded(all), g);
    }
    assert multiset(Decoded(bins)) == multiset(all);
    DeliveredExactlyOnce(ms, Decoded(bins));
  }

  // ---------- the same from the device ----------

  /** What the device puts on the link for a payload that fits (and all its frames do, WireAt). */
  function WrapOne(link: Link, payload: seq<byte>): seq<byte> {
    match Outer(link, payload)
    case Ok(bin) => bin
    case _ => []
  }

  function Wrapped(link: Link, payloads: seq<seq<byte>>): (bins: seq<seq<byte>>)
    ensures |bins| == |payloads|
  {
    if payloads == [] then []
    else Wrapped(link, payloads[..|payloads| - 1]) + [WrapOne(link, payloads[|payloads| - 1])]
  }

  /** What onFragmentData of a peer at `port` hands to its message handler. */
  function Unwrapped(port: u16, bins: seq<seq<byte>>): seq<seq<byte>> {
    if bins == [] then []
    else
      match OnFragment(port, bins[|bins| - 1])
      case Delivered(payload) => Unwrapped(port, bins[..|bins| - 1]) + [payload]
      case _ => Unwrapped(port, bins[..|bins| - 1])
  }

  lemma WrapRoundTrip(link: Link, payload: seq<byte>)
    requires link.Device? && |payload| <= MESSAGE_PAYLOAD
    ensures Outer(link, payload).Ok? && OnFragment(link.appSidePort, WrapOne(link, payload)) == Delivered(payload)
  {
    DecodeEncodeBin(Bin(FLAG_APP, VERSION_1, TYPE_DATA, link.appDevicePort, link.appSidePort, link.appId, 0, payload));
    hide EncodeBin, DecodeBin;
  }

  ghost predicate Short(payloads: seq<seq<byte>>) {
    forall i :: 0 <= i < |payloads| ==> |payloads[i]| <= MESSAGE_PAYLOAD
  }

  lemma {:induction false} WrappedCount(link: Link, payloads: seq<seq<byte>>, p: seq<byte>)
    requires link.Device? && Short(payloads) && |p| <= MESSAGE_PAYLOAD
    ensures multiset(Wrapped(link, payloads))[WrapOne(link, p)] == multiset(payloads)[p]
  {
    hide WrapOne, OnFragment;
    if payloads != [] {
      var before, last := payloads[..|payloads| - 1], payloads[|payloads| - 1];
      WrappedCount(link, before, p);
      WrapRoundTrip(link, p);
      WrapRoundTrip(link, last);
      assert payloads == before + [last];
    }
  }

  ghost predicate FromDevice(link: Link, bin: seq<byte>) {
    exists payload: seq<byte> :: |payload| <= MESSAGE_PAYLOAD && bin == WrapOne(link, payload)
  }

  ghost predicate AllFromDevice(link: Link, bins: seq<seq<byte>>) {
    forall bin :: bin in bins ==> FromDevice(link, bin)
  }

  lemma LastFromDevice(link: Link, bins: seq<seq<byte>>) returns (payload: seq<byte>)
    requires link.Device? && AllFromDevice(link, bins) && bins != []
    ensures var before, last := bins[..|bins| - 1], bins[|bins| - 1];
            && AllFromDevice(link, before) && bins == before + [last]
            && |payload| <= MESSAGE_PAYLOAD && last == WrapOne(link, payload)
            && Unwrapped(link.appSidePort, bins) == Unwrapped(link.appSidePort, before) + [payload]
  {
    hide WrapOne, OnFragment;
    assert FromDevice(link, bins[|bins| - 1]);
    payload :| |payload| <= MESSAGE_PAYLOAD && bins[|bins| - 1] == WrapOne(link, payload);
    WrapRoundTrip(link, payload);
  }

  lemma {:induction false} UnwrappedCount(link: Link, bins: seq<seq<byte>>, p: seq<byte>)
    requires link.Device? && AllFromDevice(link, bins)
    ensures multiset(Unwrapped(link.appSidePort, bins))[p]
            == if |p| <= MESSAGE_PAYLOAD then multiset(bins)[WrapOne(link, p)] else 0
  {
    hide WrapOne, OnFragment, AllFromDevice;
    if bins != [] {
      var payload := LastFromDevice(link, bins);
      var before, last := bins[..|bins| - 1], bins[|bins| - 1];
      hide Unwrapped;
      UnwrappedCount(link, before, p);
      SameWrap(link, p, payload);
      CountSnoc(before, last, WrapOne(link, p));
      CountSnoc(Unwrapped(link.appSidePort, before), payload, p);
    }
  }

  lemma SameWrap(link: Link, p: seq<byte>, q: seq<byte>)
    requires link.Device? && |q| <= MESSAGE_PAYLOAD
    ensures |p| <= MESSAGE_PAYLOAD ==> (WrapOne(link, p) == WrapOne(link, q) <==> p == q)
  {
    hide WrapOne, OnFragment;
    WrapRoundTrip(link, q);
    if |p| <= MESSAGE_PAYLOAD {
      WrapRoundTrip(link, p);
    }
  }

  lemma CountSnoc<T>(a: seq<T>, x: T, y: T)
    ensures multiset(a + [x])[y] == multiset(a)[y] + (if x == y then 1 else 0)
  {}

  lemma {:induction false} WrappedFromDevice(link: Link, payloads: seq<seq<byte>>)
    requires Short(payloads)
    ensures AllFromDevice(link, Wrapped(link, payloads))
  {
    hide WrapOne;
    if payloads != [] {
      WrappedFromDevice(link, payloads[..|payloads| - 1]);
    }
  }

  lemma {:induction false} EncodedShort(fs: seq<Frame>)
    requires forall f :: f in fs ==> |f.payload| <= C
    ensures Short(Encoded(fs))
  {
    hide Encode;
    if fs != [] {
      EncodedShort(fs[..|fs| - 1]);
      ChunkSize();
      EncodedLength(fs[|fs| - 1]);
    }
  }

  lemma {:induction false} AllSentShort(ms: seq<Message>)
    requires Family(ms)
    ensures Short(AllSent(ms))
  {
    AllSentEncoded(ms);
    forall f | f in AllFrames(ms)
      ensures |f.payload| <= C
    {
      var j := FrameOwner(ms, f);
      InFrames(ms[j], f);
    }
    EncodedShort(AllFrames(ms));
  }

  /** The send loop of the device puts just these on the link. */
  lemma {:induction false} SentAreWrapped(m: Message, link: Link, n: nat)
    requires m.Valid() && n <= m.Count()
    ensures forall i :: 0 <= i < n ==> Wire(m, link, n)[i] == Ok(Wrapped(link, Encoded(FramesOf(m)[..n]))[i])
  {
    hide Encode, FrameAt, Outer;
    if n > 0 {
      SentAreWrapped(m, link, n - 1);
      FrameFits(m, n - 1, link);
      assert FramesOf(m)[..n][..n - 1] == FramesOf(m)[..n - 1];
      assert FramesOf(m)[..n][n - 1] == FrameAt(m, n - 1);
      var all := Encoded(FramesOf(m)[..n]);
      assert all == Encoded(FramesOf(m)[..n - 1]) + [Encode(FrameAt(m, n - 1))];
      assert all[..n - 1] == Encoded(FramesOf(m)[..n - 1]);
    }
  }

  /** End to end on a link that ends in onFragmentData: the byte strings of the device's send loop for any family of
      messages, permuted and interleaved at will and unwrapped there, come out as exactly those messages. */
  lemma {:induction false} DeviceDelivered(ms: seq<Message>, link: Link, bins: seq<seq<byte>>)
    requires Family(ms) && link.Device? && multiset(bins) == multiset(Wrapped(link, AllSent(ms)))
    ensures var got := Unwrapped(link.appSidePort, bins);
            && Readable(got) && Run(Decoded(got)).0 == map[]
            && (forall j :: 0 <= j < |ms| ==>
                  EventsFor(Run(Decoded(got)).1, MessageKey(ms[j])) == EventsOf(Whole(ms[j])))
            && (forall k :: (forall j :: 0 <= j < |ms| ==> MessageKey(ms[j]) != k) ==>
                  EventsFor(Run(Decoded(got)).1, k) == [])
  {
    hide Decode, Run, EventsOf, Whole, AllSent, EventsFor, Readable, Wrapped, Unwrapped, WrapOne, FromDevice, Short;
    var sent, got := AllSent(ms), Unwrapped(link.appSidePort, bins);
    AllSentShort(ms);
    WrappedFromDevice(link, sent);
    forall bin | bin in bins
      ensures FromDevice(link, bin)
    {
      assert bin in multiset(bins);
      assert bin in Wrapped(link, sent);
    }
    forall p: seq<byte>
      ensures multiset(got)[p] == multiset(sent)[p]
    {
      UnwrappedCount(link, bins, p);
      if |p| <= MESSAGE_PAYLOAD {
        WrappedCount(link, sent, p);
      } else {
        NotShort(sent, p);
      }
    }
    assert multiset(got) == multiset(sent);
    WireDelivered(ms, got);
  }

  lemma NotShort(payloads: seq<seq<byte>>, p: seq<byte>)
    requires Short(payloads) && |p| > MESSAGE_PAYLOAD
    ensures multiset(payloads)[p] == 0
  {
    assert forall x :: x in payloads ==> |x| <= MESSAGE_PAYLOAD;
  }

  /** The class does what Run says: a new MessageBuilder fed with the byte strings one by one. */
  method ReceiveAll(bins: seq<seq<byte>>) returns (mb: MessageBuilder)
    requires Readable(bins)
    ensures fresh(mb) && mb.Valid()
    ensures mb.View() == Run(Decoded(bins)).0 && mb.emitted == Run(Decoded(bins)).1
  {
    hide Decode, OnFrame;
    mb := new MessageBuilder();
    assert Decoded(bins[..0]) == [];
    for i := 0 to |bins|
      invariant fresh(mb) && fresh(mb.sessions.Values) && mb.Valid()
      invariant mb.View() == Run(Decoded(bins[..i])).0 && mb.emitted == Run(Decoded(bins[..i])).1
    {
      assert bins[..i + 1][..i] == bins[..i];
      RunSnoc(Decoded(bins[..i]), Decode(bins[i]).value);
      var _ := mb.OnMessage(bins[i]);
    }
    assert bins[..|bins|] == bins;
  }
}
