/** Messages that share a (traceId, type): what the receiver makes of their frames, and when it can still not go wrong. */
module Mixing {
  import opened Common
  import opened WireFormat
  import opened Sender
  import opened Receiver
  import opened Delivery

  ghost predicate Sendable(ms: seq<Message>) {
    forall j :: 0 <= j < |ms| ==> ms[j].Valid() && ms[j].data != []
  }

  function Chunk(m: Message, i: nat): seq<byte>
    requires m.Valid() && i < m.Count()
  {
    FrameAt(m, i).payload
  }

  lemma ChunkIs(m: Message, i: nat)
    requires m.Valid() && i < m.Count()
    ensures Chunk(m, i) == m.data[Start(m, i)..Start(m, i + 1)] && |Chunk(m, i)| <= 3518
    ensures i + 1 < m.Count() ==> |Chunk(m, i)| == 3518 && Start(m, i) == 3518 * i && Start(m, i + 1) == 3518 * (i + 1)
    ensures i + 1 == m.Count() ==> Start(m, i) == 3518 * i && Start(m, i + 1) == |m.data|
  {
    CountBounds(m);
  }

  // ---------- mixed payloads ----------

  /** Message y can lend its chunk i to message x. A chunk that is the last of its own message can do so only if it fills
      a frame and x has at least three. */
  ghost predicate Lends(y: Message, i: nat, x: Message)
    requires y.Valid() && x.Valid()
  {
    && MessageKey(y) == MessageKey(x) && i + 1 < x.Count() && i < y.Count()
    && |Chunk(y, i)| == 3518
    && (y.Count() > i + 1 || x.Count() >= 3)
  }

  /** Chunk i of message ys[i], for i below n, one after the other. */
  function Joined(ms: seq<Message>, ys: seq<nat>, n: nat): seq<byte>
    requires Sendable(ms) && n <= |ys| && forall i :: 0 <= i < n ==> ys[i] < |ms| && i < ms[ys[i]].Count()
  {
    if n == 0 then [] else Joined(ms, ys, n - 1) + Chunk(ms[ys[n - 1]], n - 1)
  }

  ghost predicate Choice(ms: seq<Message>, x: nat, ys: seq<nat>)
    requires Sendable(ms)
  {
    && x < |ms| && |ys| == ms[x].Count() && ys != [] && ys[|ys| - 1] == x
    && (forall i :: 0 <= i < |ys| ==> ys[i] < |ms| && i < ms[ys[i]].Count())
    && (forall i: nat :: i < |ys| - 1 ==> Lends(ms[ys[i]], i, ms[x]))
  }

  function WithPayload(f: Frame, data: seq<byte>): Frame
    requires |data| < 0x1_0000_0000
  {
    f.(payload := data, payloadLength := |data|)
  }

  /** An emission: the last frame of x with chunks lent by other messages in front of x's own last one. */
  ghost predicate Mixed(ms: seq<Message>, x: nat, ys: seq<nat>, full: Frame)
    requires Sendable(ms)
  {
    && Choice(ms, x, ys) && |Joined(ms, ys, |ys|)| == |ms[x].data|
    && full == WithPayload(Last(ms[x]), Joined(ms, ys, |ys|))
  }

  // ---------- every emission is one ----------

  ghost predicate FromKey(ms: seq<Message>, k: Key, f: Frame)
    requires Sendable(ms)
  {
    exists j :: 0 <= j < |ms| && MessageKey(ms[j]) == k && f in FramesOf(ms[j])
  }

  /** What every session of key k looks like. */
  ghost predicate Mingled(ms: seq<Message>, k: Key, s: SessionState)
    requires Sendable(ms)
  {
    && (forall c :: c in s.chunks ==> FromKey(ms, k, c))
    && (s.finishChunk.None? ==> s.count == 0 && forall c :: c in s.chunks ==> c.opCode != FINISHED)
    && (s.finishChunk.Some? ==> && s.finishChunk.value in s.chunks && s.finishChunk.value.opCode == FINISHED
                                && s.count == s.finishChunk.value.seqId)
  }

  /** A session that is still waiting. */
  ghost predicate Waiting(ms: seq<Message>, k: Key, s: SessionState)
    requires Sendable(ms)
  {
    Mingled(ms, k, s) && (s.chunks != [] ==> s.count != |s.chunks|)
  }

  lemma KeyFrame(ms: seq<Message>, k: Key, f: Frame) returns (j: nat)
    requires Sendable(ms) && FromKey(ms, k, f)
    ensures j < |ms| && MessageKey(ms[j]) == k == KeyOf(f)
    ensures 1 <= f.seqId <= ms[j].Count() && f == FrameAt(ms[j], f.seqId - 1)
    ensures f.payloadLength == |f.payload| && f.totalLength == |ms[j].data|
    ensures f.opCode == FINISHED <==> f.seqId == ms[j].Count()
  {
    j :| 0 <= j < |ms| && MessageKey(ms[j]) == k && f in FramesOf(ms[j]);
    InFrames(ms[j], f);
  }

  /** Where the gathered chunks come from. */
  lemma {:induction false} PickAll(ms: seq<Message>, k: Key, chunks: seq<Frame>, n: nat) returns (ys: seq<nat>)
    requires Sendable(ms) && (forall c :: c in chunks ==> FromKey(ms, k, c)) && Gather(chunks, n).Some?
    ensures |ys| == n
    ensures forall i :: 0 <= i < n ==> ys[i] < |ms| && i < ms[ys[i]].Count() && MessageKey(ms[ys[i]]) == k
    ensures forall i :: 0 <= i < n ==> FrameAt(ms[ys[i]], i) in chunks
    ensures Gather(chunks, n) == Some(Joined(ms, ys, n))
  {
    hide FrameAt, FromKey, Find;
    if n == 0 {
      ys := [];
    } else {
      var before := PickAll(ms, k, chunks, n - 1);
      var c := Find(chunks, n).value;
      var j := KeyFrame(ms, k, c);
      ys := before + [j];
      JoinedSame(ms, before, ys, n - 1);
    }
  }

  lemma {:induction false} JoinedSame(ms: seq<Message>, a: seq<nat>, b: seq<nat>, n: nat)
    requires Sendable(ms) && n <= |a| && n <= |b|
    requires forall i :: 0 <= i < n ==> a[i] < |ms| && i < ms[a[i]].Count()
    requires forall i :: 0 <= i < n ==> b[i] < |ms| && i < ms[b[i]].Count()
    requires forall i :: 0 <= i < n ==> Chunk(ms[a[i]], i) == Chunk(ms[b[i]], i)
    ensures Joined(ms, a, n) == Joined(ms, b, n)
  {
    hide Chunk;
    if n > 0 {
      JoinedSame(ms, a, b, n - 1);
    }
  }

  /** As many chunks as numbers: no number twice. */
  lemma NumbersUnique(chunks: seq<Frame>, sel: seq<Frame>, c: Frame, d: Frame)
    requires |sel| == |chunks| && (forall i :: 0 <= i < |sel| ==> sel[i] in chunks && sel[i].seqId == i + 1)
    requires c in chunks && d in chunks && c.seqId == d.seqId
    ensures c == d
  {
    var a, b := multiset(chunks), multiset(sel);
    forall f
      ensures b[f] <= a[f]
    {
      if f in sel {
        var i :| 0 <= i < |sel| && sel[i] == f;
        OccursOnce(sel, i);
        assert f in a;
      }
    }
    assert b <= a && |a| == |b|;
    assert a == b + (a - b) && |a - b| == 0;
    assert c in b && d in b;
    assert c in sel && d in sel;
  }

  lemma {:induction false} JoinedLength(ms: seq<Message>, ys: seq<nat>, n: nat)
    requires Sendable(ms) && n <= |ys| && forall i :: 0 <= i < n ==> ys[i] < |ms| && i < ms[ys[i]].Count()
    ensures |Joined(ms, ys, n)| <= 3518 * n
    ensures |Joined(ms, ys, n)| == 3518 * n ==> forall i :: 0 <= i < n ==> |Chunk(ms[ys[i]], i)| == 3518
  {
    hide Chunk;
    if n > 0 {
      JoinedLength(ms, ys, n - 1);
      ChunkIs(ms[ys[n - 1]], n - 1);
    }
  }

  /** ... the last of them being the finish chunk. */
  lemma PickLast(ms: seq<Message>, k: Key, chunks: seq<Frame>, fin: Frame, x: nat) returns (ys: seq<nat>)
    requires Sendable(ms) && (forall c :: c in chunks ==> FromKey(ms, k, c)) && Gather(chunks, |chunks|).Some?
    requires fin in chunks && x < |ms| && MessageKey(ms[x]) == k && |chunks| == ms[x].Count() == fin.seqId
    requires fin == FrameAt(ms[x], fin.seqId - 1)
    ensures |ys| == |chunks| && ys[|ys| - 1] == x
    ensures forall i :: 0 <= i < |ys| ==> ys[i] < |ms| && i < ms[ys[i]].Count() && MessageKey(ms[ys[i]]) == k
    ensures forall i :: 0 <= i < |ys| ==> FrameAt(ms[ys[i]], i) in chunks
    ensures Gather(chunks, |chunks|) == Some(Joined(ms, ys, |ys|))
  {
    hide FrameAt, Gather, FromKey, Joined;
    var n := |chunks|;
    var picked := PickAll(ms, k, chunks, n);
    var sel := seq(n, i requires 0 <= i < n => FrameAt(ms[picked[i]], i));
    forall i | 0 <= i < n
      ensures sel[i] in chunks && sel[i].seqId == i + 1
    {
      FrameFacts(ms[picked[i]], i);
    }
    NumbersUnique(chunks, sel, sel[n - 1], fin);
    ys := picked[n - 1 := x];
    JoinedSame(ms, picked, ys, n);
  }

  /** With x's own chunk last and x's length in all, no chunk before it is short. */
  lemma NoShortChunk(ms: seq<Message>, x: nat, ys: seq<nat>)
    requires Sendable(ms) && x < |ms| && |ys| == ms[x].Count() && ys != [] && ys[|ys| - 1] == x
    requires forall i :: 0 <= i < |ys| ==> ys[i] < |ms| && i < ms[ys[i]].Count()
    requires |Joined(ms, ys, |ys|)| == |ms[x].data|
    ensures forall i :: 0 <= i < |ys| - 1 ==> |Chunk(ms[ys[i]], i)| == 3518
  {
    hide Chunk;
    var n := |ys|;
    JoinedLength(ms, ys, n - 1);
    ChunkIs(ms[x], n - 1);
    CountBounds(ms[x]);
    assert |Joined(ms, ys, n)| == |Joined(ms, ys, n - 1)| + |Chunk(ms[x], n - 1)|;
  }

  /** The completed session: x is the message of the finish chunk. */
  lemma CompletedIsMixed(ms: seq<Message>, k: Key, s: SessionState, buf: seq<byte>) returns (x: nat, ys: seq<nat>)
    requires Sendable(ms) && Mingled(ms, k, s) && s.finishChunk.Some? && s.count == |s.chunks|
    requires Gather(s.chunks, s.count) == Some(buf) && s.finishChunk.value.totalLength == |buf|
    requires |s.chunks| == 2 ==> forall c :: c in s.chunks && c.seqId == 1 ==> c.opCode != FINISHED
    ensures Mixed(ms, x, ys, WithPayload(s.finishChunk.value, buf))
  {
    var fin, n := s.finishChunk.value, s.count;
    hide FrameAt, Gather, FromKey, Joined;
    x := KeyFrame(ms, k, fin);
    ys := PickLast(ms, k, s.chunks, fin, x);
    NoShortChunk(ms, x, ys);
    assert fin == Last(ms[x]);
    forall i: nat | i < n - 1
      ensures Lends(ms[ys[i]], i, ms[x])
    {
      FrameFacts(ms[ys[i]], i);
      assert FrameAt(ms[ys[i]], i) in s.chunks;
    }
  }

  lemma MingledStep(ms: seq<Message>, k: Key, s: SessionState, f: Frame)
    requires Sendable(ms) && Mingled(ms, k, s) && FromKey(ms, k, f)
    ensures Mingled(ms, k, Note(s, f).(chunks := s.chunks + [f]))
  {
    hide FromKey;
  }

  lemma WaitingStep(ms: seq<Message>, k: Key, s: SessionState, f: Frame)
    requires Sendable(ms) && Waiting(ms, k, s) && FromKey(ms, k, f)
    ensures var (s', out) := Added(s, f);
            && (out.Quiet? ==> Waiting(ms, k, s'))
            && (out.Complete? ==> exists x, ys :: Mixed(ms, x, ys, out.full))
  {
    var j := KeyFrame(ms, k, f);
    MingledStep(ms, k, s, f);
    var s2 := Note(s, f).(chunks := s.chunks + [f]);
    hide FromKey, Gather, Mixed;
    var (s', out) := Added(s, f);
    if out.Complete? {
      NoEarlyLast(ms, k, s, f);
      var x, ys := CompletedIsMixed(ms, k, s2, out.full.payload);
    }
  }

  /** Of two chunks that complete a message, the first one is not the last frame of its own message. */
  lemma NoEarlyLast(ms: seq<Message>, k: Key, s: SessionState, f: Frame)
    requires Sendable(ms) && Waiting(ms, k, s)
    requires var s2 := Note(s, f).(chunks := s.chunks + [f]); s2.count == |s2.chunks|
    ensures var s2 := Note(s, f).(chunks := s.chunks + [f]);
            |s2.chunks| == 2 ==> forall c :: c in s2.chunks && c.seqId == 1 ==> c.opCode != FINISHED
  {
    if |s.chunks| == 1 {
      assert s.chunks == [s.chunks[0]];
    }
  }

  ghost predicate AllWaiting(ms: seq<Message>, st: Sessions)
    requires Sendable(ms)
  {
    forall k :: k in st ==> Waiting(ms, k, st[k])
  }

  ghost predicate IsMixed(ms: seq<Message>, e: Event)
    requires Sendable(ms)
  {
    e.Error? || exists x, ys :: Mixed(ms, x, ys, e.full) && e in EventsOf(e.full)
  }

  lemma EventsAreMixed(ms: seq<Message>, x: nat, ys: seq<nat>, full: Frame)
    requires Sendable(ms) && Mixed(ms, x, ys, full)
    ensures forall e :: e in EventsOf(full) ==> IsMixed(ms, e)
  {
    hide Mixed;
    forall e | e in EventsOf(full)
      ensures IsMixed(ms, e)
    {
      assert e.full == full;
    }
  }

  lemma AnyStep(ms: seq<Message>, st: Sessions, j: nat, f: Frame)
    requires Sendable(ms) && AllWaiting(ms, st) && j < |ms| && f in FramesOf(ms[j])
    ensures var (st', evs) := OnFrame(st, f);
            AllWaiting(ms, st') && forall e :: e in evs ==> IsMixed(ms, e)
  {
    var k := KeyOf(f);
    InFrames(ms[j], f);
    assert FromKey(ms, k, f);
    var s := Opened(st, k);
    assert Waiting(ms, k, s);
    hide FromKey, Added, Mixed, Waiting, EventsOf;
    WaitingStep(ms, k, s, f);
    var out := Added(s, f).1;
    if out.Complete? {
      var x, ys :| Mixed(ms, x, ys, out.full);
      EventsAreMixed(ms, x, ys, out.full);
    }
    hide IsMixed;
  }

  /** WHAT AN EMISSION ALWAYS IS. Whatever messages the frames come from, and whatever is lost, repeated and reordered:
      every emission carries the last frame of some message x, and each chunk of its payload is the chunk of that number
      of some message with the same (traceId, type). */
  lemma {:induction false} AlwaysMixed(ms: seq<Message>, fs: seq<Frame>)
    requires Sendable(ms) && forall f :: f in fs ==> f in AllFrames(ms)
    ensures AllWaiting(ms, Run(fs).0) && forall e :: e in Run(fs).1 ==> IsMixed(ms, e)
  {
    hide OnFrame, IsMixed, AllWaiting;
    if fs == [] {
      NoneWaiting(ms);
    } else {
      var before, f := fs[..|fs| - 1], fs[|fs| - 1];
      AlwaysMixed(ms, before);
      var j := FrameOwner(ms, f);
      AnyStep(ms, Run(before).0, j, f);
    }
  }

  lemma NoneWaiting(ms: seq<Message>)
    requires Sendable(ms)
    ensures AllWaiting(ms, map[])
  {}

  // ---------- when a mixed payload is whole ----------

  lemma {:induction false} JoinedOwn(ms: seq<Message>, x: nat, ys: seq<nat>, n: nat)
    requires Sendable(ms) && x < |ms| && n <= |ys| && n <= ms[x].Count()
    requires forall i :: 0 <= i < n ==> ys[i] < |ms| && i < ms[ys[i]].Count() && Chunk(ms[ys[i]], i) == Chunk(ms[x], i)
    ensures Joined(ms, ys, n) == ms[x].data[..Start(ms[x], n)]
  {
    hide Chunk;
    if n > 0 {
      JoinedOwn(ms, x, ys, n - 1);
      ChunkIs(ms[x], n - 1);
      var d, i, j := ms[x].data, Start(ms[x], n - 1), Start(ms[x], n);
      assert d[..i] + d[i..j] == d[..j];
    }
  }

  lemma {:induction false} JoinedSplits(ms: seq<Message>, a: seq<nat>, b: seq<nat>, n: nat)
    requires Sendable(ms) && n <= |a| && n <= |b|
    requires forall i :: 0 <= i < n ==> a[i] < |ms| && i < ms[a[i]].Count() && b[i] < |ms| && i < ms[b[i]].Count()
    requires forall i :: 0 <= i < n ==> |Chunk(ms[a[i]], i)| == |Chunk(ms[b[i]], i)|
    requires Joined(ms, a, n) == Joined(ms, b, n)
    ensures forall i :: 0 <= i < n ==> Chunk(ms[a[i]], i) == Chunk(ms[b[i]], i)
  {
    hide Chunk;
    if n > 0 {
      var c, d := Chunk(ms[a[n - 1]], n - 1), Chunk(ms[b[n - 1]], n - 1);
      SameTail(Joined(ms, a, n - 1), c, Joined(ms, b, n - 1), d);
      JoinedSplits(ms, a, b, n - 1);
    }
  }

  lemma SameTail(a: seq<byte>, c: seq<byte>, b: seq<byte>, d: seq<byte>)
    requires a + c == b + d && |c| == |d|
    ensures a == b && c == d
  {
    assert a == (a + c)[..|a|] && b == (b + d)[..|b|];
    assert c == (a + c)[|a|..] && d == (b + d)[|b|..];
  }

  /** x's own chunks, one after the other. */
  lemma OwnChunks(ms: seq<Message>, x: nat) returns (own: seq<nat>)
    requires Sendable(ms) && x < |ms|
    ensures |own| == ms[x].Count() > 0 && (forall i :: 0 <= i < |own| ==> own[i] == x)
    ensures Joined(ms, own, |own|) == ms[x].data
  {
    var n := ms[x].Count();
    own := seq(n, _ => x);
    CountBounds(ms[x]);
    JoinedOwn(ms, x, own, n);
    ChunkIs(ms[x], n - 1);
    assert ms[x].data[..|ms[x].data|] == ms[x].data;
  }

  lemma SameLengths(ms: seq<Message>, x: nat, ys: seq<nat>, i: nat)
    requires Sendable(ms) && Choice(ms, x, ys) && i < |ys|
    ensures |Chunk(ms[ys[i]], i)| == |Chunk(ms[x], i)|
  {
    ChunkIs(ms[x], i);
    if i < |ys| - 1 {
      assert Lends(ms[ys[i]], i, ms[x]);
    }
  }

  /** An emission is whole exactly when each of its chunks agrees with the chunk of that number of the message whose last
      frame it carries. */
  lemma WholeIff(ms: seq<Message>, x: nat, ys: seq<nat>, full: Frame)
    requires Sendable(ms) && Mixed(ms, x, ys, full)
    ensures full == Whole(ms[x]) <==> forall i :: 0 <= i < |ys| ==> Chunk(ms[ys[i]], i) == Chunk(ms[x], i)
  {
    var own := OwnChunks(ms, x);
    hide Chunk, Joined, Last, Lends;
    forall i | 0 <= i < |ys|
      ensures |Chunk(ms[ys[i]], i)| == |Chunk(ms[own[i]], i)|
    {
      SameLengths(ms, x, ys, i);
    }
    assert full == Whole(ms[x]) <==> Joined(ms, ys, |ys|) == ms[x].data;
    hide Whole;
    if Joined(ms, ys, |ys|) == ms[x].data {
      JoinedSplits(ms, ys, own, |ys|);
    } else if forall i :: 0 <= i < |ys| ==> Chunk(ms[ys[i]], i) == Chunk(ms[x], i) {
      JoinedSame(ms, ys, own, |ys|);
      assert false;
    }
  }

  // ---------- families that cannot go wrong ----------

  /** x with its chunk i replaced. */
  function Spliced(x: Message, i: nat, chunk: seq<byte>): Frame
    requires x.Valid() && x.data != [] && i + 1 < x.Count() && |chunk| == 3518
  {
    CountBounds(x);
    WithPayload(Last(x), x.data[..3518 * i] + chunk + x.data[3518 * (i + 1)..])
  }

  ghost predicate IsWhole(ms: seq<Message>, full: Frame)
    requires Sendable(ms)
  {
    exists z :: 0 <= z < |ms| && Whole(ms[z]) == full
  }

  /** Whatever chunk one message can lend to another, the outcome is one of the messages again. */
  ghost predicate SpliceClosed(ms: seq<Message>)
    requires Sendable(ms)
  {
    forall x: nat, y: nat, i: nat :: x < |ms| && y < |ms| && Lends(ms[y], i, ms[x]) ==>
      IsWhole(ms, Spliced(ms[x], i, Chunk(ms[y], i)))
  }

  /** Their last frames differ in nothing but the payload. */
  ghost predicate SameHeader(z: Message, x: Message)
    requires z.Valid() && x.Valid() && z.data != [] && x.data != []
  {
    forall q: seq<byte> :: |q| < 0x1_0000_0000 ==> WithPayload(Last(z), q) == WithPayload(Last(x), q)
  }

  lemma WholeHeader(z: Message, x: Message, data: seq<byte>)
    requires z.Valid() && x.Valid() && z.data != [] && x.data != [] && |data| == |x.data|
    requires Whole(z) == WithPayload(Last(x), data)
    ensures z.data == data && z.Count() == x.Count() && MessageKey(z) == MessageKey(x) && SameHeader(z, x)
  {
    CountBounds(z);
    CountBounds(x);
    FrameFacts(z, z.Count() - 1);
    FrameFacts(x, x.Count() - 1);
    hide FrameAt;
    assert WithPayload(Whole(z), Last(x).payload) == WithPayload(Last(z), Last(x).payload);
    forall q: seq<byte> | |q| < 0x1_0000_0000
      ensures WithPayload(Last(z), q) == WithPayload(Last(x), q)
    {
      assert WithPayload(Last(z), q) == WithPayload(Whole(z), q);
      assert WithPayload(Last(x), q) == WithPayload(WithPayload(Last(x), data), q);
    }
  }

  /** The chunks of the choice up to j, then x's own. */
  function PartMixed(ms: seq<Message>, x: nat, ys: seq<nat>, j: nat): seq<byte>
    requires Sendable(ms) && Choice(ms, x, ys) && j < |ys|
  {
    CountBounds(ms[x]);
    Joined(ms, ys, j) + ms[x].data[3518 * j..]
  }

  lemma PartLength(ms: seq<Message>, x: nat, ys: seq<nat>, j: nat)
    requires Sendable(ms) && Choice(ms, x, ys) && j < |ys|
    ensures |Joined(ms, ys, j)| == 3518 * j && |PartMixed(ms, x, ys, j)| == |ms[x].data|
  {
    CountBounds(ms[x]);
    LentLength(ms, x, ys, j);
  }

  lemma {:induction false} LentLength(ms: seq<Message>, x: nat, ys: seq<nat>, j: nat)
    requires Sendable(ms) && Choice(ms, x, ys) && j < |ys|
    ensures |Joined(ms, ys, j)| == 3518 * j
  {
    hide Chunk;
    if j > 0 {
      LentLength(ms, x, ys, j - 1);
      assert Lends(ms[ys[j - 1]], j - 1, ms[x]);
    }
  }

  lemma LendsToo(y: Message, i: nat, x: Message, w: Message)
    requires y.Valid() && x.Valid() && w.Valid() && Lends(y, i, x)
    requires w.Count() == x.Count() && MessageKey(w) == MessageKey(x)
    ensures Lends(y, i, w)
  {}

  lemma SplicedIs(ms: seq<Message>, x: nat, ys: seq<nat>, j: nat, w: Message)
    requires Sendable(ms) && Choice(ms, x, ys) && 0 < j < |ys| && w.Valid() && w.data != []
    requires w.data == PartMixed(ms, x, ys, j - 1) && w.Count() == ms[x].Count() && SameHeader(w, ms[x])
    ensures |Chunk(ms[ys[j - 1]], j - 1)| == 3518 && |PartMixed(ms, x, ys, j)| == |ms[x].data|
    ensures Spliced(w, j - 1, Chunk(ms[ys[j - 1]], j - 1)) == WithPayload(Last(ms[x]), PartMixed(ms, x, ys, j))
  {
    hide Chunk, Last, FrameAt, Joined;
    assert Lends(ms[ys[j - 1]], j - 1, ms[x]);
    CountBounds(w);
    PartLength(ms, x, ys, j);
    PartNext(ms, x, ys, j, w.data);
    hide PartMixed;
  }

  /** Message z is the mix up to chunk j. */
  ghost predicate Reached(ms: seq<Message>, x: nat, ys: seq<nat>, j: nat, z: nat)
    requires Sendable(ms) && Choice(ms, x, ys) && j < |ys|
  {
    && z < |ms| && |PartMixed(ms, x, ys, j)| == |ms[x].data|
    && Whole(ms[z]) == WithPayload(Last(ms[x]), PartMixed(ms, x, ys, j))
  }

  lemma ReachedFirst(ms: seq<Message>, x: nat, ys: seq<nat>)
    requires Sendable(ms) && Choice(ms, x, ys)
    ensures Reached(ms, x, ys, 0, x)
  {
    assert PartMixed(ms, x, ys, 0) == ms[x].data;
  }

  lemma ReachedNext(ms: seq<Message>, x: nat, ys: seq<nat>, j: nat, w: nat) returns (z: nat)
    requires Sendable(ms) && SpliceClosed(ms) && Choice(ms, x, ys) && 0 < j < |ys| && Reached(ms, x, ys, j - 1, w)
    ensures Reached(ms, x, ys, j, z)
  {
    hide Chunk, Last, FrameAt, SpliceClosed, Lends;
    WholeHeader(ms[w], ms[x], PartMixed(ms, x, ys, j - 1));
    SplicedIs(ms, x, ys, j, ms[w]);
    var y := ys[j - 1];
    assert Lends(ms[y], j - 1, ms[x]);
    hide PartMixed, Joined, SameHeader, Whole, Choice, Spliced;
    LendsToo(ms[y], j - 1, ms[x], ms[w]);
    z := SplicedWhole(ms, w, y, j - 1);
  }

  lemma {:induction false} ClosedUpTo(ms: seq<Message>, x: nat, ys: seq<nat>, j: nat) returns (z: nat)
    requires Sendable(ms) && SpliceClosed(ms) && Choice(ms, x, ys) && j < |ys|
    ensures Reached(ms, x, ys, j, z)
  {
    hide Reached, SpliceClosed, Choice;
    if j == 0 {
      ReachedFirst(ms, x, ys);
      z := x;
    } else {
      var w := ClosedUpTo(ms, x, ys, j - 1);
      z := ReachedNext(ms, x, ys, j, w);
    }
  }

  lemma SplicedWhole(ms: seq<Message>, x: nat, y: nat, i: nat) returns (z: nat)
    requires Sendable(ms) && SpliceClosed(ms) && x < |ms| && y < |ms| && Lends(ms[y], i, ms[x])
    ensures z < |ms| && Whole(ms[z]) == Spliced(ms[x], i, Chunk(ms[y], i))
  {
    assert IsWhole(ms, Spliced(ms[x], i, Chunk(ms[y], i)));
    z :| 0 <= z < |ms| && Whole(ms[z]) == Spliced(ms[x], i, Chunk(ms[y], i));
  }

  lemma PartNext(ms: seq<Message>, x: nat, ys: seq<nat>, j: nat, data: seq<byte>)
    requires Sendable(ms) && Choice(ms, x, ys) && 0 < j < |ys| && data == PartMixed(ms, x, ys, j - 1)
    requires 3518 * j <= |data|
    ensures data[..3518 * (j - 1)] + Chunk(ms[ys[j - 1]], j - 1) + data[3518 * j..] == PartMixed(ms, x, ys, j)
  {
    hide Chunk;
    PartLength(ms, x, ys, j - 1);
    CountBounds(ms[x]);
    var own := ms[x].data;
    assert data[..3518 * (j - 1)] == Joined(ms, ys, j - 1);
    assert data[3518 * j..] == own[3518 * j..];
  }

  lemma PartIsAll(ms: seq<Message>, x: nat, ys: seq<nat>)
    requires Sendable(ms) && Choice(ms, x, ys)
    ensures PartMixed(ms, x, ys, |ys| - 1) == Joined(ms, ys, |ys|)
  {
    var n := |ys|;
    ChunkIs(ms[x], n - 1);
    CountBounds(ms[x]);
    hide Chunk;
    assert ms[x].data[3518 * (n - 1)..] == Chunk(ms[x], n - 1);
  }

  lemma ClosedMix(ms: seq<Message>, x: nat, ys: seq<nat>, full: Frame)
    requires Sendable(ms) && SpliceClosed(ms) && Mixed(ms, x, ys, full)
    ensures IsWhole(ms, full)
  {
    hide SpliceClosed, Chunk, Last, PartMixed, Joined, Whole;
    var z := ClosedUpTo(ms, x, ys, |ys| - 1);
    PartIsAll(ms, x, ys);
    hide Choice;
    assert Whole(ms[z]) == full;
  }

  // ---------- families that can ----------

  /** A session to which fs came one after the other without completing it. */
  function Stacked(fs: seq<Frame>): SessionState {
    if fs == [] then FRESH
    else Note(Stacked(fs[..|fs| - 1]), fs[|fs| - 1]).(chunks := fs)
  }

  ghost predicate OfKey(fs: seq<Frame>, k: Key) {
    forall f :: f in fs ==> KeyOf(f) == k && f.payloadLength == |f.payload|
  }

  /** The count is not reached by the first p frames. */
  ghost predicate Unreached(fs: seq<Frame>, p: nat)
    requires p <= |fs|
  {
    Stacked(fs[..p]).count != p
  }

  lemma {:induction false} RunStacked(fs: seq<Frame>, k: Key)
    requires OfKey(fs, k) && forall p: nat :: 0 < p <= |fs| ==> Unreached(fs, p)
    ensures Run(fs).1 == [] && Run(fs).0.Keys <= {k} && Opened(Run(fs).0, k) == Stacked(fs)
  {
    hide Note;
    if fs != [] {
      var before, f := fs[..|fs| - 1], fs[|fs| - 1];
      forall p: nat | 0 < p <= |before|
        ensures Unreached(before, p)
      {
        assert Unreached(fs, p) && before[..p] == fs[..p];
      }
      RunStacked(before, k);
      assert Unreached(fs, |fs|) && fs[..|fs|] == fs && fs == before + [f];
      StackedStep(Stacked(before), f, fs);
      hide Added, Stacked, Short;
    }
  }

  lemma StackedStep(s: SessionState, f: Frame, fs: seq<Frame>)
    requires f.payloadLength == |f.payload| && fs == s.chunks + [f] && Note(s, f).count != |fs|
    ensures Added(s, f) == (Note(s, f).(chunks := fs), Quiet)
  {
    hide Gather;
  }

  lemma {:induction false} StackedChunks(fs: seq<Frame>)
    ensures Stacked(fs).chunks == fs
  {}

  lemma AddedCompletes(s: SessionState, f: Frame, fs: seq<Frame>, buf: seq<byte>)
    requires f.payloadLength == |f.payload| && fs == s.chunks + [f] && |buf| < 0x1_0000_0000
    requires Note(s, f).count == |fs| && Note(s, f).finishChunk.Some?
    requires Note(s, f).finishChunk.value.totalLength == |buf| && Gather(fs, |fs|) == Some(buf)
    ensures Added(s, f).1 == Complete(WithPayload(Note(s, f).finishChunk.value, buf))
  {
    hide Gather;
  }

  lemma RunFinishes(fs: seq<Frame>, k: Key, buf: seq<byte>)
    requires fs != [] && OfKey(fs, k) && forall p: nat :: 0 < p < |fs| ==> Unreached(fs, p)
    requires var s := Stacked(fs);
             && s.count == |fs| && s.finishChunk.Some? && s.finishChunk.value.totalLength == |buf|
    requires Gather(fs, |fs|) == Some(buf)
    ensures Run(fs).1 == EventsOf(WithPayload(Stacked(fs).finishChunk.value, buf))
  {
    hide Note, Gather, EventsOf, Added, WithPayload;
    var before, f := fs[..|fs| - 1], fs[|fs| - 1];
    RunNearly(fs, k);
    AddedCompletes(Stacked(before), f, fs, buf);
    var full := WithPayload(Stacked(fs).finishChunk.value, buf);
    hide Stacked, Unreached, OfKey, Run;
    LastFrame(before, f, k, full);
  }

  lemma RunNearly(fs: seq<Frame>, k: Key)
    requires fs != [] && OfKey(fs, k) && forall p: nat :: 0 < p < |fs| ==> Unreached(fs, p)
    ensures var before, f := fs[..|fs| - 1], fs[|fs| - 1];
            && fs == before + [f] && KeyOf(f) == k && Stacked(before).chunks == before
            && Run(before).1 == [] && Opened(Run(before).0, k) == Stacked(before)
  {
    hide Stacked, Run;
    var before := fs[..|fs| - 1];
    forall p: nat | 0 < p <= |before|
      ensures Unreached(before, p)
    {
      assert Unreached(fs, p) && before[..p] == fs[..p];
    }
    RunStacked(before, k);
    StackedChunks(before);
  }

  lemma LastFrame(before: seq<Frame>, f: Frame, k: Key, full: Frame)
    requires KeyOf(f) == k && Run(before).1 == [] && Added(Opened(Run(before).0, k), f).1 == Complete(full)
    ensures Run(before + [f]).1 == EventsOf(full)
  {
    hide Added, EventsOf;
    assert (before + [f])[..|before|] == before;
    assert [] + EventsOf(full) == EventsOf(full);
  }

  lemma {:induction false} StackedTail(head: seq<Frame>, tail: seq<Frame>, p: nat)
    requires |head| <= p <= |head + tail| && forall f :: f in tail ==> f.opCode != FINISHED
    ensures Stacked((head + tail)[..p]).count == Stacked(head).count
    ensures Stacked((head + tail)[..p]).finishChunk == Stacked(head).finishChunk
  {
    var fs := (head + tail)[..p];
    if p == |head| {
      assert fs == head;
    } else {
      StackedTail(head, tail, p - 1);
      assert fs[..p - 1] == (head + tail)[..p - 1];
      assert fs[p - 1] == tail[p - 1 - |head|];
    }
  }

  // ---------- gathering a selection ----------

  function Payloads(sel: seq<Frame>, n: nat): seq<byte>
    requires n <= |sel|
  {
    if n == 0 then [] else Payloads(sel, n - 1) + sel[n - 1].payload
  }

  ghost predicate Arranges(fs: seq<Frame>, sel: seq<Frame>) {
    && |fs| == |sel|
    && (forall j :: 0 <= j < |sel| ==> sel[j] in fs && sel[j].seqId == j + 1)
    && (forall f :: f in fs ==> 1 <= f.seqId <= |sel| && f == sel[f.seqId - 1])
  }

  lemma {:induction false} GatherArranged(fs: seq<Frame>, sel: seq<Frame>, n: nat)
    requires Arranges(fs, sel) && n <= |sel|
    ensures Gather(fs, n) == Some(Payloads(sel, n))
  {
    hide Find;
    if n > 0 {
      GatherArranged(fs, sel, n - 1);
      var c := Find(fs, n);
      assert sel[n - 1] in fs;
    }
  }

  /** Any arrangement with the last frame in `head` that is not complete within head completes at its end. */
  lemma OrderWorks(head: seq<Frame>, tail: seq<Frame>, sel: seq<Frame>, k: Key)
    requires sel != [] && Arranges(head + tail, sel) && OfKey(head + tail, k)
    requires forall f :: f in tail ==> f.opCode != FINISHED
    requires forall p: nat :: 0 < p < |head| ==> Unreached(head, p)
    requires var s := Stacked(head);
             s.count == |sel| && s.finishChunk == Some(sel[|sel| - 1]) && sel[|sel| - 1].totalLength == |Payloads(sel, |sel|)|
    ensures Run(head + tail).1 == EventsOf(WithPayload(sel[|sel| - 1], Payloads(sel, |sel|)))
  {
    var fs := head + tail;
    hide Arranges, Payloads, EventsOf, Note, OfKey, Stacked;
    assert |fs| == |sel| && |head| <= |sel| by {
      SameCount(head, tail, sel);
    }
    forall p: nat | 0 < p < |fs|
      ensures Unreached(fs, p)
    {
      if p < |head| {
        assert Unreached(head, p) && fs[..p] == head[..p];
      } else {
        StackedTail(head, tail, p);
      }
    }
    StackedTail(head, tail, |fs|);
    assert fs[..|fs|] == fs;
    GatherArranged(fs, sel, |sel|);
    RunFinishes(fs, k, Payloads(sel, |sel|));
  }

  lemma SameCount(head: seq<Frame>, tail: seq<Frame>, sel: seq<Frame>)
    requires Arranges(head + tail, sel)
    ensures |head + tail| == |sel| && |head| <= |sel|
  {}

  // ---------- the run that goes wrong ----------

  /** The frames of x with frame i taken from y. */
  function Selection(x: Message, y: Message, i: nat): (sel: seq<Frame>)
    requires x.Valid() && y.Valid() && i < y.Count()
    ensures |sel| == x.Count()
  {
    seq(x.Count(), j requires 0 <= j < x.Count() => if j == i then FrameAt(y, i) else FrameAt(x, j))
  }

  lemma SelectionAt(x: Message, y: Message, i: nat, j: nat)
    requires x.Valid() && y.Valid() && x.data != [] && y.data != [] && Lends(y, i, x) && j < x.Count()
    ensures var f := Selection(x, y, i)[j];
            && KeyOf(f) == MessageKey(x) && f.payloadLength == |f.payload| && f.seqId == j + 1
            && (j != i ==> (f.opCode == FINISHED <==> j + 1 == x.Count()))
            && (j == i ==> (f.opCode == FINISHED <==> y.Count() == i + 1))
            && (j + 1 == x.Count() ==> f == Last(x) && f.totalLength == |x.data|)
  {
    FrameFacts(x, j);
    FrameFacts(y, i);
    hide FrameAt;
  }

  /** The first n chunks, the i-th of them c, in terms of the data d of x. */
  function SplicedUpTo(d: seq<byte>, i: nat, c: seq<byte>, n: nat, end: nat): seq<byte>
    requires n <= i ==> end <= |d|
    requires n > i ==> 3518 * (i + 1) <= end <= |d|
  {
    if n <= i then d[..end] else d[..3518 * i] + c + d[3518 * (i + 1)..end]
  }

  lemma SplicedNext(d: seq<byte>, i: nat, c: seq<byte>, n: nat, a: nat, b: nat)
    requires 0 < n && a <= b <= |d| && a == 3518 * (n - 1) && (n > i ==> 3518 * (i + 1) <= b)
    requires n - 1 > i ==> 3518 * (i + 1) <= a
    requires n == i + 1 ==> b == 3518 * (i + 1)
    ensures SplicedUpTo(d, i, c, n, b) == SplicedUpTo(d, i, c, n - 1, a) + (if n == i + 1 then c else d[a..b])
  {
    if n <= i {
      assert d[..a] + d[a..b] == d[..b];
    } else if n == i + 1 {
      assert d[3518 * (i + 1)..b] == [];
    } else {
      assert d[3518 * (i + 1)..a] + d[a..b] == d[3518 * (i + 1)..b];
    }
  }

  lemma {:induction false} SelectionPayloads(x: Message, y: Message, i: nat, n: nat)
    requires x.Valid() && y.Valid() && x.data != [] && Lends(y, i, x) && n <= x.Count()
    ensures Start(x, n) <= |x.data| && (n > i ==> 3518 * (i + 1) <= Start(x, n))
    ensures Payloads(Selection(x, y, i), n) == SplicedUpTo(x.data, i, Chunk(y, i), n, Start(x, n))
  {
    CountBounds(x);
    if n > 0 {
      SelectionPayloads(x, y, i, n - 1);
      ChunkIs(x, n - 1);
      hide FrameAt, SplicedUpTo;
      SplicedNext(x.data, i, Chunk(y, i), n, Start(x, n - 1), Start(x, n));
    }
  }

  /** An order of the selection in which the receiver completes it. */
  ghost predicate GoodOrder(head: seq<Frame>, tail: seq<Frame>, sel: seq<Frame>) {
    && sel != [] && Arranges(head + tail, sel)
    && (forall f :: f in tail ==> f.opCode != FINISHED)
    && (forall p: nat :: 0 < p < |head| ==> Unreached(head, p))
    && Stacked(head).count == |sel| && Stacked(head).finishChunk == Some(sel[|sel| - 1])
  }

  lemma StackedOne(f: Frame)
    ensures Stacked([f]).count == (if f.opCode == FINISHED then f.seqId else 0)
    ensures Stacked([f]).finishChunk == (if f.opCode == FINISHED then Some(f) else None)
  {
    assert Stacked([f][..0]) == FRESH;
  }

  lemma StackedSnoc(fs: seq<Frame>, f: Frame)
    ensures Stacked(fs + [f]).count == (if f.opCode == FINISHED then f.seqId else Stacked(fs).count)
    ensures Stacked(fs + [f]).finishChunk == (if f.opCode == FINISHED then Some(f) else Stacked(fs).finishChunk)
  {
    assert (fs + [f])[..|fs|] == fs;
  }

  lemma Arranged(fs: seq<Frame>, sel: seq<Frame>)
    requires |fs| == |sel| && forall j :: 0 <= j < |sel| ==> sel[j].seqId == j + 1
    requires (forall p :: 0 <= p < |fs| ==> fs[p] in sel) && (forall j :: 0 <= j < |sel| ==> sel[j] in fs)
    ensures Arranges(fs, sel)
  {
    forall f | f in fs
      ensures 1 <= f.seqId <= |sel| && f == sel[f.seqId - 1]
    {
      var p :| 0 <= p < |fs| && fs[p] == f;
      assert fs[p] in sel;
      var j :| 0 <= j < |sel| && sel[j] == f;
    }
  }

  /** The frames of a selection are numbered, the last one is a last frame, and `early` is the only other one that may be. */
  ghost predicate Numbered(sel: seq<Frame>, early: Option<nat>) {
    && sel != [] && (forall j :: 0 <= j < |sel| ==> sel[j].seqId == j + 1)
    && (forall j :: 0 <= j < |sel| ==> (sel[j].opCode == FINISHED <==> j + 1 == |sel| || early == Some(j)))
  }

  lemma SelectionNumbered(x: Message, y: Message, i: nat)
    requires x.Valid() && y.Valid() && x.data != [] && y.data != [] && Lends(y, i, x)
    ensures Numbered(Selection(x, y, i), if y.Count() == i + 1 then Some(i) else None)
  {
    var sel := Selection(x, y, i);
    forall j | 0 <= j < |sel|
      ensures sel[j].seqId == j + 1
      ensures sel[j].opCode == FINISHED <==> j + 1 == |sel| || (y.Count() == i + 1 && i == j)
    {
      SelectionAt(x, y, i, j);
    }
  }

  /** No frame but the last is a last frame: in order. */
  lemma InOrder(sel: seq<Frame>) returns (head: seq<Frame>, tail: seq<Frame>)
    requires Numbered(sel, None)
    ensures head == sel && tail == [] && GoodOrder(head, tail, sel)
  {
    hide Stacked, Unreached;
    head, tail := sel, [];
    assert head + tail == sel;
    InOrderEarlier(sel);
    InOrderLast(sel);
    Arranged(sel, sel);
    hide Arranges, Numbered;
  }

  lemma InOrderEarlier(sel: seq<Frame>)
    requires Numbered(sel, None)
    ensures forall p: nat :: 0 < p < |sel| ==> Unreached(sel, p)
    ensures Stacked(sel[..|sel| - 1]).count == 0
  {
    var before := sel[..|sel| - 1];
    NothingStacked();
    hide Stacked;
    forall p: nat | 0 < p < |sel|
      ensures Unreached(sel, p)
    {
      StackedTail([], before, p);
      assert ([] + before)[..p] == sel[..p];
    }
    StackedTail([], before, |before|);
    assert ([] + before)[..|before|] == before;
  }

  lemma InOrderLast(sel: seq<Frame>)
    requires Numbered(sel, None)
    ensures Stacked(sel).count == |sel| && Stacked(sel).finishChunk == Some(sel[|sel| - 1])
  {
    var n := |sel|;
    StackedSnoc(sel[..n - 1], sel[n - 1]);
    assert sel[..n - 1] + [sel[n - 1]] == sel;
    hide Stacked;
  }

  lemma NothingStacked()
    ensures Stacked([]) == FRESH
  {}

  /** All but the last frame and frame i. */
  function Others(sel: seq<Frame>, i: nat): (tail: seq<Frame>)
    requires i + 1 < |sel|
    ensures |tail| == |sel| - 2
  {
    seq(|sel| - 2, p requires 0 <= p < |sel| - 2 => if p < i then sel[p] else sel[p + 1])
  }

  lemma LentFirstArranged(sel: seq<Frame>, i: nat)
    requires i + 1 < |sel| && Numbered(sel, Some(i))
    ensures Arranges([sel[i], sel[|sel| - 1]] + Others(sel, i), sel)
    ensures forall f :: f in Others(sel, i) ==> f.opCode != FINISHED
  {
    var n, head, tail := |sel|, [sel[i], sel[|sel| - 1]], Others(sel, i);
    var fs := head + tail;
    forall p | 0 <= p < n
      ensures fs[p] in sel
    {
      assert p == 0 || p == 1 || fs[p] == tail[p - 2];
    }
    forall j | 0 <= j < n
      ensures sel[j] in fs
    {
      if j < i {
        assert fs[j + 2] == sel[j];
      } else if i < j < n - 1 {
        assert fs[j + 1] == sel[j];
      } else {
        assert fs[0] == sel[i] && fs[1] == sel[n - 1];
      }
    }
    Arranged(fs, sel);
    hide Arranges;
  }

  /** Frame i is a last frame too, and not the first: it comes first, then the last frame of x. */
  lemma LentFirst(sel: seq<Frame>, i: nat) returns (head: seq<Frame>, tail: seq<Frame>)
    requires 0 < i && i + 1 < |sel| && Numbered(sel, Some(i))
    ensures GoodOrder(head, tail, sel)
  {
    var n := |sel|;
    head, tail := [sel[i], sel[n - 1]], Others(sel, i);
    LentFirstArranged(sel, i);
    StackedOne(sel[i]);
    StackedSnoc([sel[i]], sel[n - 1]);
    assert head[..1] == [sel[i]] && head == [sel[i]] + [sel[n - 1]];
    hide Stacked, Arranges, Others;
    assert Unreached(head, 1);
  }

  lemma LentSecondArranged(sel: seq<Frame>)
    requires 3 <= |sel| && Numbered(sel, Some(0))
    ensures Arranges([sel[1], sel[0], sel[|sel| - 1]] + sel[2..|sel| - 1], sel)
    ensures forall f :: f in sel[2..|sel| - 1] ==> f.opCode != FINISHED
  {
    var n, head, tail := |sel|, [sel[1], sel[0], sel[|sel| - 1]], sel[2..|sel| - 1];
    var fs := head + tail;
    forall p | 0 <= p < n
      ensures fs[p] in sel
    {
      assert p == 0 || p == 1 || p == 2 || fs[p] == tail[p - 3];
    }
    forall j | 0 <= j < n
      ensures sel[j] in fs
    {
      if 2 <= j < n - 1 {
        assert fs[j + 1] == sel[j];
      } else {
        assert fs[0] == sel[1] && fs[1] == sel[0] && fs[2] == sel[n - 1];
      }
    }
    Arranged(fs, sel);
    hide Arranges;
  }

  /** The first frame is a last frame too: another one comes before it. */
  lemma LentSecond(sel: seq<Frame>) returns (head: seq<Frame>, tail: seq<Frame>)
    requires 3 <= |sel| && Numbered(sel, Some(0))
    ensures GoodOrder(head, tail, sel)
  {
    var n := |sel|;
    var a, b := [sel[1]], [sel[1], sel[0]];
    head, tail := [sel[1], sel[0], sel[n - 1]], sel[2..n - 1];
    LentSecondArranged(sel);
    StackedOne(sel[1]);
    StackedSnoc(a, sel[0]);
    StackedSnoc(b, sel[n - 1]);
    hide Stacked, Arranges;
    assert head[..1] == a && head[..2] == b && a + [sel[0]] == b && b + [sel[n - 1]] == head;
    assert Unreached(head, 1) && Unreached(head, 2);
  }

  lemma SelectionSources(x: Message, y: Message, i: nat, fs: seq<Frame>)
    requires x.Valid() && y.Valid() && x.data != [] && y.data != [] && Lends(y, i, x) && Arranges(fs, Selection(x, y, i))
    ensures forall f :: f in fs ==> f in FramesOf(x) || f in FramesOf(y)
    ensures OfKey(fs, MessageKey(x))
  {
    forall f | f in fs
      ensures (f in FramesOf(x) || f in FramesOf(y)) && KeyOf(f) == MessageKey(x) && f.payloadLength == |f.payload|
    {
      var j := f.seqId - 1;
      SelectionAt(x, y, i, j);
      assert f == if j == i then FramesOf(y)[i] else FramesOf(x)[j];
    }
  }

  lemma SelectionWhole(x: Message, y: Message, i: nat)
    requires x.Valid() && y.Valid() && x.data != [] && y.data != [] && Lends(y, i, x)
    ensures var sel := Selection(x, y, i);
            && sel != [] && sel[|sel| - 1] == Last(x) && Last(x).totalLength == |x.data| == |Payloads(sel, |sel|)|
            && WithPayload(Last(x), Payloads(sel, |sel|)) == Spliced(x, i, Chunk(y, i))
  {
    var n := x.Count();
    SelectionAt(x, y, i, n - 1);
    SelectionPayloads(x, y, i, n);
    ChunkIs(x, n - 1);
    CountBounds(x);
    hide Selection, Payloads, Chunk, Last, FrameAt;
    assert x.data[3518 * (i + 1)..|x.data|] == x.data[3518 * (i + 1)..];
  }

  /** Some order completes the selection. */
  lemma SomeGoodOrder(sel: seq<Frame>, i: nat, early: bool) returns (head: seq<Frame>, tail: seq<Frame>)
    requires i + 1 < |sel| && Numbered(sel, if early then Some(i) else None) && (early ==> |sel| >= 3)
    ensures GoodOrder(head, tail, sel) && (!early ==> head + tail == sel)
  {
    hide GoodOrder, Numbered;
    if !early {
      head, tail := InOrder(sel);
      assert head + tail == sel;
    } else if i > 0 {
      head, tail := LentFirst(sel, i);
    } else {
      head, tail := LentSecond(sel);
    }
  }

  lemma GoodOrderRuns(head: seq<Frame>, tail: seq<Frame>, sel: seq<Frame>, k: Key)
    requires GoodOrder(head, tail, sel) && OfKey(head + tail, k)
    requires sel[|sel| - 1].totalLength == |Payloads(sel, |sel|)|
    ensures Run(head + tail).1 == EventsOf(WithPayload(sel[|sel| - 1], Payloads(sel, |sel|)))
  {
    hide Arranges, OfKey, Payloads, Stacked, Unreached, Run, EventsOf;
    OrderWorks(head, tail, sel, k);
  }

  /** Whatever y can lend to x, some order of those frames makes the receiver emit. */
  lemma LentIsEmitted(x: Message, y: Message, i: nat) returns (fs: seq<Frame>)
    requires x.Valid() && y.Valid() && x.data != [] && y.data != [] && Lends(y, i, x)
    ensures forall f :: f in fs ==> f in FramesOf(x) || f in FramesOf(y)
    ensures Run(fs).1 == EventsOf(Spliced(x, i, Chunk(y, i)))
    ensures y.Count() > i + 1 ==> fs == Selection(x, y, i)
  {
    var sel := Selection(x, y, i);
    SelectionNumbered(x, y, i);
    hide Selection, Numbered, GoodOrder, EventsOf, Run, FramesOf, Spliced;
    var head, tail := SomeGoodOrder(sel, i, y.Count() == i + 1);
    fs := head + tail;
    GoodSelection(x, y, i, head, tail);
  }

  lemma GoodSelection(x: Message, y: Message, i: nat, head: seq<Frame>, tail: seq<Frame>)
    requires x.Valid() && y.Valid() && x.data != [] && y.data != [] && Lends(y, i, x)
    requires GoodOrder(head, tail, Selection(x, y, i))
    ensures forall f :: f in head + tail ==> f in FramesOf(x) || f in FramesOf(y)
    ensures Run(head + tail).1 == EventsOf(Spliced(x, i, Chunk(y, i)))
  {
    hide EventsOf, Run, FramesOf, Spliced, Arranges, Unreached, Stacked, OfKey, Payloads, Last, Chunk, WithPayload, Selection;
    SelectionWhole(x, y, i);
    SelectionSources(x, y, i, head + tail);
    hide GoodOrder;
    GoodOrderRuns(head, tail, Selection(x, y, i), MessageKey(x));
  }

  // ---------- exactly when ----------

  ghost predicate AllWhole(ms: seq<Message>, fs: seq<Frame>)
    requires Sendable(ms)
  {
    forall e :: e in Run(fs).1 ==> e.Error? || IsWhole(ms, e.full)
  }

  ghost predicate NeverMixes(ms: seq<Message>)
    requires Sendable(ms)
  {
    forall fs :: (forall f :: f in fs ==> f in AllFrames(ms)) ==> AllWhole(ms, fs)
  }

  lemma {:induction false} InAllFrames(ms: seq<Message>, j: nat, f: Frame)
    requires Sendable(ms) && j < |ms| && f in FramesOf(ms[j])
    ensures f in AllFrames(ms)
  {
    if j < |ms| - 1 {
      InAllFrames(ms[..|ms| - 1], j, f);
    }
  }

  /** WHEN THE RECEIVER CANNOT GO WRONG. For any messages, with the same (traceId, type) or not: under every loss, repetition
      and reordering of their frames only whole messages are emitted, exactly when whatever chunk one of them can lend
      to another makes one of them again. */
  lemma NeverMixesIff(ms: seq<Message>)
    requires Sendable(ms)
    ensures NeverMixes(ms) <==> SpliceClosed(ms)
  {
    if SpliceClosed(ms) {
      forall fs | forall f :: f in fs ==> f in AllFrames(ms)
        ensures AllWhole(ms, fs)
      {
        ClosedIsWhole(ms, fs);
      }
    }
    if NeverMixes(ms) {
      forall x: nat, y: nat, i: nat | x < |ms| && y < |ms| && Lends(ms[y], i, ms[x])
        ensures IsWhole(ms, Spliced(ms[x], i, Chunk(ms[y], i)))
      {
        NotClosedGoesWrong(ms, x, y, i);
      }
    }
  }

  lemma ClosedIsWhole(ms: seq<Message>, fs: seq<Frame>)
    requires Sendable(ms) && SpliceClosed(ms) && forall f :: f in fs ==> f in AllFrames(ms)
    ensures AllWhole(ms, fs)
  {
    AlwaysMixed(ms, fs);
    hide SpliceClosed, Mixed, Run;
    forall e | e in Run(fs).1
      ensures e.Error? || IsWhole(ms, e.full)
    {
      assert IsMixed(ms, e);
      if !e.Error? {
        var x, ys :| Mixed(ms, x, ys, e.full);
        ClosedMix(ms, x, ys, e.full);
      }
    }
  }

  lemma NotClosedGoesWrong(ms: seq<Message>, x: nat, y: nat, i: nat)
    requires Sendable(ms) && NeverMixes(ms) && x < |ms| && y < |ms| && Lends(ms[y], i, ms[x])
    ensures IsWhole(ms, Spliced(ms[x], i, Chunk(ms[y], i)))
  {
    var fs := LentIsEmitted(ms[x], ms[y], i);
    forall f | f in fs
      ensures f in AllFrames(ms)
    {
      InAllFrames(ms, if f in FramesOf(ms[x]) then x else y, f);
    }
    assert AllWhole(ms, fs);
    var full := Spliced(ms[x], i, Chunk(ms[y], i));
    assert Data(full) in EventsOf(full);
  }

  /** Messages with distinct keys have nothing to lend each other. */
  lemma DistinctKeysAreClosed(ms: seq<Message>)
    requires Family(ms)
    ensures Sendable(ms) && SpliceClosed(ms) && NeverMixes(ms)
  {
    forall x: nat, y: nat, i: nat | x < |ms| && y < |ms| && Lends(ms[y], i, ms[x])
      ensures IsWhole(ms, Spliced(ms[x], i, Chunk(ms[y], i)))
    {
      var m := ms[x];
      assert x == y;
      ChunkIs(m, i);
      CountBounds(m);
      assert m.data == m.data[..3518 * i] + m.data[3518 * i..3518 * (i + 1)] + m.data[3518 * (i + 1)..];
      assert Whole(m) == Spliced(m, i, Chunk(m, i));
    }
    NeverMixesIff(ms);
  }

  // ---------- two messages ----------

  /** A message of two frames, every byte of which is b. */
  function Uniform(b: byte): Message { Message(7, 8, REQUEST, 0, 0, seq(3519, _ => b), [1000, 1000]) }

  /** Two messages with one key, and the first frame of the one followed by the second frame of the other: the receiver
      emits 3518 bytes of the first and one of the second, which is neither. */
  lemma MixedExample()
    ensures var a, b, full := Uniform(1), Uniform(2), Spliced(Uniform(2), 0, Chunk(Uniform(1), 0));
            && a.Valid() && b.Valid() && a.Count() == b.Count() == 2
            && Run([FrameAt(a, 0), FrameAt(b, 1)]).1 == EventsOf(full)
            && full.payload == seq(3518, _ => 1) + [2] && full.payload != a.data && full.payload != b.data
  {
    var a, b := Uniform(1), Uniform(2);
    UniformLends();
    var fs := LentIsEmitted(b, a, 0);
    var full := Spliced(b, 0, Chunk(a, 0));
    assert Selection(b, a, 0) == [FrameAt(a, 0), FrameAt(b, 1)];
    hide Run, EventsOf, Selection, FrameAt, Chunk, Last;
    assert full.payload == seq(3518, _ => 1) + [2] by {
      assert b.data[..0] == [] && b.data[3518..] == [2];
    }
    assert full.payload[0] == 1 && full.payload[3518] == 2 && a.data[3518] == 1 && b.data[0] == 2;
  }

  lemma UniformLends()
    ensures var a, b := Uniform(1), Uniform(2);
            && a.Valid() && b.Valid() && a.Count() == b.Count() == 2 && Lends(a, 0, b)
            && Chunk(a, 0) == seq(3518, _ => 1)
  {
    var a := Uniform(1);
    ChunkIs(a, 0);
    assert a.data[0..3518] == seq(3518, _ => 1);
  }
}
