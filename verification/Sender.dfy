/** sendHmProtocol: a byte string cut into numbered frames. */
module Sender {
  import opened WireFormat
  import opened Buffers

  const CONTINUED: u8 := 0
  const FINISHED: u8 := 1
  const REQUEST: u8 := 1
  const RESPONSE: u8 := 2
  const NOTIFY: u8 := 3
  const FLAG_APP: u8 := 1
  const VERSION_1: u8 := 1
  const TYPE_SHAKE: u16 := 1
  const TYPE_DATA: u16 := 4
  const TYPE_DATA_SYSTEM: u16 := 5
  const TYPE_LOG: u16 := 6

  /** HM_MESSAGE_PROTO_PAYLOAD, written as a number so that products with it stay linear. */
  const C := 3518

  lemma ChunkSize()
    ensures C == HM_MESSAGE_PROTO_PAYLOAD && HM_MESSAGE_PROTO_HEADER + C == MESSAGE_PAYLOAD
  {}

  /** One call of sendHmProtocol; `times` are the clock readings taken while its frames are built. */
  datatype Message = Message(traceId: u32, spanId: u32, kind: u8, contentType: u8, dataType: u8, data: seq<byte>,
                             times: seq<u32>)
  {
    function Count(): nat { (|data| + 3517) / 3518 }

    predicate Valid() { |data| < 0x1_0000_0000 && |times| == Count() }
  }

  function Start(m: Message, i: nat): nat {
    if i * 3518 < |m.data| then i * 3518 else |m.data|
  }

  function ChunkData(m: Message, i: nat, seqId: nat): (d: PayloadData)
    requires m.Valid() && i < m.Count() && seqId < 0x1_0000_0000
    ensures |d.payload| <= C
  {
    PayloadData(m.traceId, m.spanId, seqId, |m.data|, m.kind, if i + 1 == m.Count() then FINISHED else CONTINUED,
                m.contentType, m.dataType, m.data[Start(m, i)..Start(m, i + 1)])
  }

  lemma CountBounds(m: Message)
    requires m.Valid()
    ensures m.Count() <= |m.data|
    ensures (m.Count() == 0) == (m.data == [])
    ensures m.Count() > 0 ==> (m.Count() - 1) * 3518 < |m.data| <= m.Count() * 3518
  {}

  /** The frame with sequence number i + 1. */
  function FrameAt(m: Message, i: nat): Frame
    requires m.Valid() && i < m.Count()
  {
    CountBounds(m);
    FrameOf(ChunkData(m, i, i + 1), m.times[i])
  }

  /** What frame i says: whose it is, its number from 1 on, whether it is the last one, and its 3518 bytes or fewer. */
  lemma {:induction false} FrameFields(m: Message, i: nat)
    requires m.Valid() && i < m.Count()
    ensures var f, end := FrameAt(m, i), if 3518 * (i + 1) < |m.data| then 3518 * (i + 1) else |m.data|;
            && 3518 * i < |m.data| && f.payload == m.data[3518 * i..end] && f.payloadLength == end - 3518 * i
            && f.seqId == i + 1 && f.totalLength == |m.data| && f.opCode == (if end == |m.data| then 1 else 0)
            && f.traceId == m.traceId && f.spanId == m.spanId && f.payloadType == m.kind
            && f.contentType == m.contentType && f.dataType == m.dataType && f.timestamp1 == m.times[i]
            && f.parentId == 0 && f.extra1 == 0 && f.extra2 == 0 && f.extra3 == 0
            && f.timestamp2 == f.timestamp3 == f.timestamp4 == f.timestamp5 == f.timestamp6 == f.timestamp7 == 0
  {
    CountBounds(m);
  }

  function FramesOf(m: Message): (fs: seq<Frame>)
    requires m.Valid()
    ensures |fs| == m.Count()
  {
    seq(m.Count(), i requires 0 <= i < m.Count() => FrameAt(m, i))
  }

  // ---------- the way to the peer ----------

  /** On the side service the frame is sent as it is; the device wraps it in the outer header. */
  datatype Link = Side | Device(appDevicePort: u16, appSidePort: u16, appId: u32)

  function Outer(link: Link, payload: seq<byte>): Result<seq<byte>> {
    match link
    case Side => Ok(payload)
    case Device(device, side, appId) => EncodeBin(Bin(FLAG_APP, VERSION_1, TYPE_DATA, device, side, appId, 0, payload))
  }

  /** dataBin.copy(target, 0, from, to) */
  method Copy(source: seq<byte>, target: array<byte>, from: nat, to: nat)
    requires from <= to <= |source| && to - from == target.Length
    modifies target
    ensures target[..] == source[from..to]
  {
    for k := 0 to to - from
      invariant target[..k] == source[from..from + k]
    {
      target[k] := source[from + k];
      assert target[..k + 1] == target[..k] + [source[from + k]];
    }
    assert target[..] == target[..to - from];
  }

  method SendDataWithSession(d: PayloadData, now: u32, link: Link) returns (bin: Result<seq<byte>>)
    requires |d.payload| < 0x1_0000_0000
    ensures bin == Outer(link, Encode(FrameOf(d, now)))
  {
    var payloadBin := BuildPayload(d, now);
    match link {
      case Side =>
        bin := Ok(payloadBin);
      case Device(device, side, appId) =>
        bin := BuildBin(Bin(FLAG_APP, VERSION_1, TYPE_DATA, device, side, appId, 0, payloadBin));
    }
  }

  lemma EncodedLength(f: Frame)
    ensures |Encode(f)| == HM_MESSAGE_PROTO_HEADER + |f.payload|
  {
    PayloadWidthsTotal();
  }

  lemma FrameFits(m: Message, i: nat, link: Link)
    requires m.Valid() && i < m.Count()
    ensures Outer(link, Encode(FrameAt(m, i))).Ok?
    ensures link.Side? ==> Outer(link, Encode(FrameAt(m, i))).value == Encode(FrameAt(m, i))
    ensures |FrameAt(m, i).payload| <= C
  {
    ChunkSize();
    EncodedLength(FrameAt(m, i));
  }

  /** One turn of the loop up to the call of sendDataWithSession: the tail gets a buffer of its own, every other
      chunk is copied over the previous one in the scratch buffer. */
  method NextChunk(m: Message, i: nat, seqId: nat, offset: nat, scratch: array<byte>)
      returns (d: PayloadData, next: nat)
    requires m.Valid() && 1 <= i <= m.Count() && seqId == i < 0x1_0000_0000
    requires offset == Start(m, i - 1) && scratch.Length == C
    modifies scratch
    ensures d == ChunkData(m, i - 1, i)
    ensures next == Start(m, i)
  {
    if i == m.Count() {
      var tailSize := |m.data| - offset;
      var tail := new byte[tailSize](_ => 0);
      Copy(m.data, tail, offset, offset + tailSize);
      next := offset + tailSize;
      d := PayloadData(m.traceId, m.spanId, seqId, |m.data|, m.kind, FINISHED, m.contentType, m.dataType, tail[..]);
    } else {
      Copy(m.data, scratch, offset, offset + C);
      next := offset + C;
      d := PayloadData(m.traceId, m.spanId, seqId, |m.data|, m.kind, CONTINUED, m.contentType, m.dataType,
                       scratch[..]);
    }
  }

  /** The first n frames of a message as they go out on the link. */
  function Wire(m: Message, link: Link, n: nat): (sent: seq<Result<seq<byte>>>)
    requires m.Valid() && n <= m.Count()
    ensures |sent| == n
  {
    if n == 0 then [] else Wire(m, link, n - 1) + [Outer(link, Encode(FrameAt(m, n - 1)))]
  }

  /** No frame is ever refused by the outer header, and a side-service frame decodes to the frame it carries. */
  lemma {:induction false} WireAt(m: Message, link: Link, n: nat, i: nat)
    requires m.Valid() && i < n <= m.Count()
    ensures Wire(m, link, n)[i].Ok?
    ensures link.Side? ==> Decode(Wire(m, link, n)[i].value) == Ok(FrameAt(m, i))
    ensures link.Device? ==> OnFragment(link.appSidePort, Wire(m, link, n)[i].value) == Delivered(Encode(FrameAt(m, i)))
  {
    hide Outer, Encode, Decode, FrameAt, OnFragment;
    if i < n - 1 {
      WireAt(m, link, n - 1, i);
    } else {
      EncodedLength(FrameAt(m, i));
      DecodeEncode(FrameAt(m, i));
      FrameFits(m, i, link);
      if link.Device? {
        FragmentRoundTrip(link, FrameAt(m, i), link.appSidePort);
      }
    }
  }

  /** One turn of the loop. */
  method SendChunk(m: Message, link: Link, i: nat, seqId: nat, offset: nat, scratch: array<byte>)
      returns (bin: Result<seq<byte>>, next: nat)
    requires m.Valid() && 1 <= i <= m.Count() && seqId == i < 0x1_0000_0000
    requires offset == Start(m, i - 1) && scratch.Length == C
    modifies scratch
    ensures bin == Outer(link, Encode(FrameAt(m, i - 1)))
    ensures next == Start(m, i)
  {
    var d;
    d, next := NextChunk(m, i, seqId, offset, scratch);
    bin := SendDataWithSession(d, m.times[i - 1], link);
  }

  /** The send loop. One scratch buffer serves every full chunk, yet frame i carries exactly its own slice. */
  method SendHmProtocol(m: Message, link: Link) returns (sent: seq<Result<seq<byte>>>, offset: nat)
    requires m.Valid()
    ensures sent == Wire(m, link, m.Count())
    ensures offset == |m.data|
  {
    hide Outer, Encode, FrameAt;
    CountBounds(m);
    offset, sent := 0, [];
    var scratch := new byte[C](_ => 0);
    var seqId := 1;
    var count := m.Count();
    var i := 1;
    while i <= count
      invariant 1 <= i <= count + 1
      invariant seqId == i
      invariant offset == Start(m, i - 1)
      invariant sent == Wire(m, link, i - 1)
    {
      var bin;
      bin, offset := SendChunk(m, link, i, seqId, offset, scratch);
      sent := sent + [bin];
      seqId, i := seqId + 1, i + 1;
    }
  }

  // ---------- the chunks of a message ----------

  /** The payloads of the frames up to i, one after the other, are the first bytes of the message. */
  function Concat(fs: seq<Frame>): seq<byte> {
    if fs == [] then [] else Concat(fs[..|fs| - 1]) + fs[|fs| - 1].payload
  }

  lemma {:induction false} ConcatPrefix(m: Message, i: nat)
    requires m.Valid() && i <= m.Count()
    ensures Concat(FramesOf(m)[..i]) == m.data[..Start(m, i)]
  {
    if i > 0 {
      ConcatPrefix(m, i - 1);
      assert FramesOf(m)[..i][..i - 1] == FramesOf(m)[..i - 1];
      assert FramesOf(m)[..i][i - 1] == FrameAt(m, i - 1);
    }
  }

  /** Cutting loses nothing. */
  lemma ConcatAll(m: Message)
    requires m.Valid()
    ensures Concat(FramesOf(m)) == m.data
  {
    CountBounds(m);
    ConcatPrefix(m, m.Count());
    assert FramesOf(m)[..m.Count()] == FramesOf(m);
  }

  // ---------- the way back on the device ----------

  datatype Fragment = Shaken(appSidePort: u16) | Delivered(payload: seq<byte>) | Logged(payload: seq<byte>)
                    | Unknown | Malformed

  /** onFragmentData of a device whose peer port is `appSidePort` (a Shake also stores the new port). */
  function OnFragment(appSidePort: u16, bin: seq<byte>): Fragment {
    match DecodeBin(bin)
    case Ok(b) =>
      if b.flag == FLAG_APP && b.kind == TYPE_SHAKE then Shaken(b.port2)
      else if b.flag == FLAG_APP && b.kind == TYPE_DATA && b.port2 == appSidePort then Delivered(b.payload)
      else if b.flag == FLAG_APP && b.kind == TYPE_DATA_SYSTEM && b.port2 == appSidePort then Delivered(b.payload)
      else if b.flag == FLAG_APP && b.kind == TYPE_LOG && b.port2 == appSidePort then Logged(b.payload)
      else Unknown
    case _ => Malformed
  }

  /** What becomes of an incoming fragment: a Shake names the port; data (types 4 and 5) and log lines (6) are taken only
      on the port in use; everything else is ignored. */
  lemma {:induction false} FragmentIs(b: Bin, appSidePort: u16)
    requires |b.payload| <= 3584
    ensures EncodeBin(b).Ok?
    ensures var r := OnFragment(appSidePort, EncodeBin(b).value);
            && (r == Shaken(b.port2) <==> b.flag == 1 && b.kind == 1)
            && (r == Delivered(b.payload) <==> b.flag == 1 && (b.kind == 4 || b.kind == 5) && b.port2 == appSidePort)
            && (r == Logged(b.payload) <==> b.flag == 1 && b.kind == 6 && b.port2 == appSidePort)
            && (r == Unknown || r == Shaken(b.port2) || r == Delivered(b.payload) || r == Logged(b.payload))
  {
    hide DecodeBin, EncodeBin, OnFragment;
    DecodeEncodeBin(b);
    ReadFragment(b, appSidePort, EncodeBin(b).value);
  }

  lemma ReadFragment(b: Bin, appSidePort: u16, bin: seq<byte>)
    requires DecodeBin(bin) == Ok(b)
    ensures var r := OnFragment(appSidePort, bin);
            && (r == Shaken(b.port2) <==> b.flag == 1 && b.kind == 1)
            && (r == Delivered(b.payload) <==> b.flag == 1 && (b.kind == 4 || b.kind == 5) && b.port2 == appSidePort)
            && (r == Logged(b.payload) <==> b.flag == 1 && b.kind == 6 && b.port2 == appSidePort)
            && (r == Unknown || r == Shaken(b.port2) || r == Delivered(b.payload) || r == Logged(b.payload))
            && (b.flag == 1 && b.kind == 4 && b.port2 != appSidePort ==> r == Unknown)
  {
    hide DecodeBin;
  }

  /** A frame the device sent is delivered as its payload exactly when it is addressed to the port in use. */
  lemma FragmentRoundTrip(link: Link, f: Frame, appSidePort: u16)
    requires link.Device? && |f.payload| <= C
    ensures Outer(link, Encode(f)).Ok?
    ensures var r := OnFragment(appSidePort, Outer(link, Encode(f)).value);
            r == if link.appSidePort == appSidePort then Delivered(Encode(f)) else Unknown
  {
    hide Encode, EncodeBin, DecodeBin, OnFragment;
    ChunkSize();
    EncodedLength(f);
    var b := Bin(FLAG_APP, VERSION_1, TYPE_DATA, link.appDevicePort, link.appSidePort, link.appId, 0, Encode(f));
    DecodeEncodeBin(b);
    ReadFragment(b, appSidePort, EncodeBin(b).value);
  }

  /** What the device puts in front of a payload. */
  lemma OuterIs(link: Link, payload: seq<byte>)
    requires link.Device? && |payload| <= 3584
    ensures Outer(link, payload).Ok?
    ensures DecodeBin(Outer(link, payload).value)
            == Ok(Bin(1, 1, 4, link.appDevicePort, link.appSidePort, link.appId, 0, payload))
  {
    DecodeEncodeBin(Bin(1, 1, 4, link.appDevicePort, link.appSidePort, link.appId, 0, payload));
    hide DecodeBin, EncodeBin;
  }
}
