/** The receiving side: one Session per (traceId, payloadType), as values; Delivery.dfy proves what it delivers. */
module Receiver {
  import opened Common
  import opened WireFormat
  import Buffers
  import opened Sender

  // ---------- Session ----------

  datatype SessionState = SessionState(chunks: seq<Frame>, count: nat, finishChunk: Option<Frame>)

  const FRESH := SessionState([], 0, None)

  /** What addChunk emits on the session: nothing, 'error', or 'data' with the reassembled chunk. */
  datatype Outcome = Quiet | Failed | Complete(full: Frame)

  /** chunks.find((c) => c.seqId === i) */
  function Find(chunks: seq<Frame>, i: nat): (r: Option<Frame>)
    ensures r.Some? ==> r.value in chunks && r.value.seqId == i
    ensures r.Some? ==> exists j: nat :: IsFirst(chunks, i, j) && chunks[j] == r.value
    ensures r.None? ==> forall c :: c in chunks ==> c.seqId != i
  {
    if chunks == [] then None
    else if chunks[0].seqId == i then
      assert IsFirst(chunks, i, 0);
      Some(chunks[0])
    else
      var rest := Find(chunks[1..], i);
      assert rest.Some? ==> exists j: nat :: IsFirst(chunks, i, j) && chunks[j] == rest.value by {
        if rest.Some? {
          var j: nat :| IsFirst(chunks[1..], i, j) && chunks[1..][j] == rest.value;
          FirstBehind(chunks, i, j);
        }
      }
      rest
  }

  /** The first chunk with sequence number i is at position j. */
  predicate IsFirst(chunks: seq<Frame>, i: nat, j: nat) {
    j < |chunks| && chunks[j].seqId == i && forall l :: 0 <= l < j ==> chunks[l].seqId != i
  }

  lemma FirstBehind(chunks: seq<Frame>, i: nat, j: nat)
    requires chunks != [] && chunks[0].seqId != i && IsFirst(chunks[1..], i, j)
    ensures IsFirst(chunks, i, j + 1)
  {
    forall l | 0 <= l < j + 1
      ensures chunks[l].seqId != i
    {
      assert l > 0 ==> chunks[1..][l - 1] == chunks[l];
    }
  }

  /** The payloads of chunks 1..n in order, if all are there. */
  function Gather(chunks: seq<Frame>, n: nat): Option<seq<byte>> {
    if n == 0 then Some([])
    else match Gather(chunks, n - 1)
      case None => None
      case Some(buf) =>
        match Find(chunks, n)
        case None => None
        case Some(c) => Some(buf + c.payload)
  }

  function Note(s: SessionState, f: Frame): SessionState {
    if f.opCode == FINISHED then SessionState(s.chunks, f.seqId, Some(f)) else s
  }

  /** checkIfReceiveAllChunks */
  function Check(s: SessionState): Outcome {
    if s.count != |s.chunks| then Quiet
    else match Gather(s.chunks, s.count)
      case None => Failed
      case Some(buf) =>
        if s.finishChunk.None? then Quiet
        else if s.finishChunk.value.totalLength != |buf| then Failed
        else Complete(s.finishChunk.value.(payload := buf, payloadLength := |buf|))
  }

  /** What checkIfReceiveAllChunks leaves of the session: nothing if a chunk is missing; the finish chunk carrying all
      bytes if it is complete. */
  function LeftBy(s: SessionState): SessionState {
    match Check(s)
    case Quiet => s
    case Complete(full) => s.(finishChunk := Some(full))
    case Failed => if Gather(s.chunks, s.count).None? then FRESH else s
  }

  function Added(s: SessionState, f: Frame): (SessionState, Outcome) {
    var s1 := Note(s, f);
    if f.payloadLength != |f.payload| then (s1, Failed)
    else
      var s2 := s1.(chunks := s1.chunks + [f]);
      (s2, Check(s2))
  }

  // ---------- MessageBuilder.onMessage ----------

  type Key = (u32, u8)

  function KeyOf(f: Frame): Key { (f.traceId, f.payloadType) }

  /** What the builder emits. The error event carries no key in the source; here it names the session it came from. */
  datatype Event = Request(full: Frame) | Response(full: Frame) | Call(full: Frame) | Data(full: Frame)
                 | Error(key: Key)

  function EventsOf(full: Frame): seq<Event> {
    (if full.payloadType == REQUEST then [Request(full)]
     else if full.payloadType == RESPONSE then [Response(full)]
     else if full.payloadType == NOTIFY then [Call(full)]
     else []) + [Data(full)]
  }

  type Sessions = map<Key, SessionState>

  function Opened(st: Sessions, k: Key): SessionState {
    if k in st then st[k] else FRESH
  }

  /** onMessage after readPayload: find or open the session, add the chunk, destroy the session on 'data' or 'error'. */
  function OnFrame(st: Sessions, f: Frame): (Sessions, seq<Event>) {
    var k := KeyOf(f);
    var (s, out) := Added(Opened(st, k), f);
    match out
    case Quiet => (st[k := s], [])
    case Failed => (st - {k}, [Error(k)])
    case Complete(full) => (st - {k}, EventsOf(full))
  }

  /** A whole run from the empty session map. */
  function Run(fs: seq<Frame>): (Sessions, seq<Event>) {
    if fs == [] then (map[], [])
    else
      var (st, evs) := Run(fs[..|fs| - 1]);
      var (st', new') := OnFrame(st, fs[|fs| - 1]);
      (st', evs + new')
  }

  // ---------- the classes ----------

  class Session {
    var chunks: seq<Frame>
    var count: nat
    var tempBuf: Option<seq<byte>>
    var finishChunk: Option<Frame>

    constructor ()
      ensures View() == FRESH && tempBuf == None
    {
      tempBuf, chunks, count, finishChunk := None, [], 0, None;
    }

    ghost function View(): SessionState
      reads this
    {
      SessionState(chunks, count, finishChunk)
    }

    method ReleaseBuf()
      modifies this
      ensures View() == FRESH && tempBuf == None
    {
      tempBuf, chunks, finishChunk, count := None, [], None, 0;
    }

    method AddChunk(f: Frame) returns (out: Outcome)
      requires tempBuf == None
      modifies this
      ensures out == Added(old(View()), f).1
      ensures out.Quiet? ==> View() == Added(old(View()), f).0
      ensures var s1 := Note(old(View()), f);
              View() == if f.payloadLength != |f.payload| then s1 else LeftBy(s1.(chunks := s1.chunks + [f]))
      ensures out.Quiet? && !(finishChunk.None? && count == |chunks|) ==> tempBuf == None
    {
      if f.opCode == FINISHED {
        count := f.seqId;
        finishChunk := Some(f);
      }
      if f.payloadLength != |f.payload| {
        return Failed;
      }
      chunks := chunks + [f];
      out := CheckIfReceiveAllChunks();
    }

    /** The reassembly loop; it fills tempBuf chunk by chunk and stops at the first one missing. */
    method CheckIfReceiveAllChunks() returns (out: Outcome)
      requires tempBuf == None
      modifies this
      ensures out == Check(old(View()))
      ensures View() == LeftBy(old(View()))
      ensures out.Quiet? && !(finishChunk.None? && count == |chunks|) ==> tempBuf == None
    {
      if count != |chunks| {
        return Quiet;
      }
      var complete := Reassemble();
      if !complete {
        return Failed;
      }
      hide Gather;
      if finishChunk.None? {
        return Quiet;
      }
      var whole := Bytes();
      if finishChunk.value.totalLength != |whole| {
        return Failed;
      }
      finishChunk := Some(finishChunk.value.(payload := whole, payloadLength := |whole|));
      return Complete(finishChunk.value);
    }

    /** The bytes in tempBuf. */
    function Bytes(): seq<byte>
      reads this
    {
      if tempBuf.Some? then tempBuf.value else []
    }

    /** The loop over the chunks 1 .. count. */
    method Reassemble() returns (complete: bool)
      requires tempBuf == None
      modifies this
      ensures complete <==> Gather(old(chunks), old(count)).Some?
      ensures complete ==> View() == old(View()) && Gather(chunks, count) == Some(Bytes())
      ensures !complete ==> View() == FRESH && tempBuf == None
    {
      assert Gather(chunks, 0) == Some([]);
      hide Find, Gather;
      var i := 1;
      while i <= count
        invariant 1 <= i <= count + 1 && View() == old(View())
        invariant Gather(chunks, i - 1) == Some(Bytes())
      {
        GatherNext(chunks, i, Bytes());
        var chunk := Find(chunks, i);
        if chunk.None? {
          GatherMonotone(chunks, i, count);
          ReleaseBuf();
          return false;
        }
        var buf := chunk.value.payload;
        tempBuf := Some(if tempBuf.Some? then tempBuf.value + buf else buf);
        i := i + 1;
      }
      return true;
    }
  }

  lemma GatherNext(chunks: seq<Frame>, i: nat, buf: seq<byte>)
    requires i > 0 && Gather(chunks, i - 1) == Some(buf)
    ensures var c := Find(chunks, i);
            && Gather(chunks, i) == (if c.None? then None else Some(buf + c.value.payload))
            && (c.Some? ==> [] + c.value.payload == c.value.payload)
  {
    hide Find;
  }

  lemma {:induction false} GatherMonotone(chunks: seq<Frame>, i: nat, n: nat)
    requires 1 <= i <= n && Gather(chunks, i).None?
    ensures Gather(chunks, n).None?
  {
    if i < n {
      GatherMonotone(chunks, i, n - 1);
    }
  }

  /** MessageBuilder with its SessionMgr; the emitted events are collected in order. */
  class MessageBuilder {
    var sessions: map<Key, Session>
    ghost var emitted: seq<Event>

    ghost predicate Valid()
      reads this`sessions, sessions.Values
    {
      && Distinct()
      && (forall k :: k in sessions ==> sessions[k].tempBuf == None && Settled(sessions[k].View()))
    }

    ghost function View(): Sessions
      reads this`sessions, sessions.Values
    {
      map k | k in sessions :: sessions[k].View()
    }

    constructor ()
      ensures Valid() && sessions == map[] && View() == map[] && emitted == []
    {
      sessions, emitted := map[], [];
    }

    ghost predicate Distinct()
      reads this`sessions
    {
      forall k, l :: k in sessions && l in sessions && k != l ==> sessions[k] != sessions[l]
    }

    /** getById, or newSession when there is none. */
    method Open(k: Key) returns (s: Session)
      requires Valid()
      modifies this`sessions
      ensures Valid() && k in sessions && sessions[k] == s
      ensures View() == old(View())[k := Opened(old(View()), k)]
      ensures fresh(sessions.Values - old(sessions.Values))
    {
      if k !in sessions {
        s := new Session();
        sessions := sessions[k := s];
      }
      s := sessions[k];
    }

    /** SessionMgr.destroy */
    method Destroy(k: Key)
      requires Distinct() && k in sessions
      requires forall l :: l in sessions && l != k ==> sessions[l].tempBuf == None && Settled(sessions[l].View())
      modifies this`sessions, sessions[k]
      ensures Valid() && View() == old(View()) - {k}
      ensures sessions.Values <= old(sessions.Values)
    {
      sessions[k].ReleaseBuf();
      sessions := sessions - {k};
    }

    /** onMessage on the raw bytes: readPayload throws on a short buffer and nothing changes. */
    method OnMessage(bin: seq<byte>) returns (events: Result<seq<Event>>)
      requires Valid()
      modifies this, sessions.Values
      ensures Valid()
      ensures Decode(bin).Ok? ==> events == Ok(OnFrame(old(View()), Decode(bin).value).1)
                                  && View() == OnFrame(old(View()), Decode(bin).value).0
                                  && emitted == old(emitted) + events.value
      ensures !Decode(bin).Ok? ==> events.RangeError? && View() == old(View()) && emitted == old(emitted)
      ensures fresh(sessions.Values - old(sessions.Values))
    {
      hide Decode, Valid, View, OnFrame;
      var p := Buffers.ReadPayload(bin);
      if !p.Ok? {
        ReadPayloadThrows(bin);
        return RangeError;
      }
      var evs := Receive(p.value);
      emitted := emitted + evs;
      return Ok(evs);
    }

    /** session.addChunk(payload) on the session of key k; only that session changes. */
    method Feed(k: Key, f: Frame) returns (out: Outcome)
      requires Valid() && k in sessions
      modifies sessions[k]
      ensures out == Added(old(View())[k], f).1
      ensures out.Quiet? ==> Valid() && View() == old(View())[k := Added(old(View())[k], f).0]
      ensures Distinct()
      ensures forall l :: l in sessions && l != k ==> sessions[l].tempBuf == None && Settled(sessions[l].View())
      ensures View() - {k} == old(View()) - {k}
    {
      hide Added;
      SettledStep(sessions[k].View(), f);
      out := sessions[k].AddChunk(f);
      if out.Quiet? {
        assert View()[k] == Added(old(View())[k], f).0;
      }
    }

    method Receive(f: Frame) returns (evs: seq<Event>)
      requires Valid()
      modifies this`sessions, sessions.Values
      ensures Valid() && View() == OnFrame(old(View()), f).0 && evs == OnFrame(old(View()), f).1
      ensures fresh(sessions.Values - old(sessions.Values))
    {
      hide Added, EventsOf, Settled, Valid, Distinct, View;
      var k := KeyOf(f);
      ghost var before := View();
      var session := Open(k);
      var out := Feed(k, f);
      assert out == Added(Opened(before, k), f).1;
      if out.Quiet? {
        evs := [];
      } else {
        Destroy(k);
        assert View() == before - {k};
        evs := if out.Failed? then [Error(k)] else EventsOf(out.full);
      }
    }
  }

  lemma ReadPayloadThrows(bin: seq<byte>)
    requires !Decode(bin).Ok?
    ensures Decode(bin).RangeError?
  {}

  /** A finish chunk was noted exactly when count is known; so a count is never reached without its finish chunk. */
  ghost predicate Settled(s: SessionState) {
    (s.finishChunk.None? ==> s.count == 0) && (s.chunks == [] ==> s.finishChunk.None?)
  }

  lemma SettledStep(s: SessionState, f: Frame)
    requires Settled(s)
    ensures Added(s, f).1.Quiet? ==> Settled(Added(s, f).0)
    ensures Added(s, f).1.Quiet? ==> var s' := Added(s, f).0; !(s'.finishChunk.None? && s'.count == |s'.chunks|)
  {}
}
