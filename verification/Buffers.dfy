/** The buffer code itself: fields written and read at a moving offset, proved against the codec. */
module Buffers {
  import opened WireFormat

  /** writeUInt8 / writeUInt16LE / writeUInt32LE at `offset`; returns the advanced offset. */
  method WriteField(buf: array<byte>, offset: nat, v: nat, w: nat, ghost vs: seq<nat>, ghost ws: seq<nat>)
      returns (next: nat, ghost vs': seq<nat>, ghost ws': seq<nat>)
    requires Fits(vs, ws) && v < Pow256(w)
    requires offset == Total(ws) && offset + w <= buf.Length
    requires buf[..offset] == EncodeRow(vs, ws)
    modifies buf
    ensures next == offset + w == Total(ws')
    ensures vs' == vs + [v] && ws' == ws + [w] && Fits(vs', ws')
    ensures buf[..next] == EncodeRow(vs', ws')
  {
    hide EncodeRow, Total;
    var n, k := v, 0;
    ghost var done: seq<byte> := [];
    while k < w
      invariant k <= w && |done| == k
      invariant buf[..offset + k] == EncodeRow(vs, ws) + done
      invariant ToLE(v, w) == done + ToLE(n, w - k)
    {
      buf[offset + k] := n % 256;
      assert buf[..offset + k + 1] == buf[..offset + k] + [n % 256];
      assert done + ToLE(n, w - k) == done + [n % 256] + ToLE(n / 256, w - k - 1);
      done := done + [n % 256];
      n, k := n / 256, k + 1;
    }
    EncodeRowSnoc(vs, ws, v, w);
    next, vs', ws' := offset + w, vs + [v], ws + [w];
  }

  /** buf.fill(payload, offset, payload.byteLength + offset) */
  method Fill(buf: array<byte>, offset: nat, payload: seq<byte>)
    requires buf.Length == offset + |payload|
    modifies buf
    ensures buf[..] == old(buf[..offset]) + payload
  {
    for k := 0 to |payload|
      invariant buf[..offset] == old(buf[..offset])
      invariant buf[offset..offset + k] == payload[..k]
    {
      buf[offset + k] := payload[k];
      assert buf[offset..offset + k + 1] == buf[offset..offset + k] + [payload[k]];
    }
    assert buf[..] == buf[..offset] + buf[offset..offset + |payload|];
  }

  /** What sendDataWithSession hands to buildPayload; the clock reading is an argument. */
  datatype PayloadData = PayloadData(traceId: u32, spanId: u32, seqId: u32, totalLength: u32, kind: u8, opCode: u8,
                                     contentType: u8, dataType: u8, payload: seq<byte>)

  function FrameOf(d: PayloadData, now: u32): Frame
    requires |d.payload| < 0x1_0000_0000
  {
    Frame(d.traceId, 0, d.spanId, d.seqId, d.totalLength, |d.payload|, d.kind, d.opCode,
          now, 0, 0, 0, 0, 0, 0, d.contentType, d.dataType, 0, 0, 0, d.payload)
  }

  /** traceId, parentId, spanId, seqId, message total length */
  method WriteIds(buf: array<byte>, offset: nat, d: PayloadData, ghost vs: seq<nat>, ghost ws: seq<nat>)
      returns (o: nat, ghost vs': seq<nat>, ghost ws': seq<nat>)
    requires Fits(vs, ws) && offset == Total(ws) && offset + 20 <= buf.Length
    requires buf[..offset] == EncodeRow(vs, ws)
    modifies buf
    ensures o == offset + 20 == Total(ws')
    ensures vs' == vs + [d.traceId, 0, d.spanId, d.seqId, d.totalLength]
    ensures ws' == ws + [4, 4, 4, 4, 4]
    ensures Fits(vs', ws') && buf[..o] == EncodeRow(vs', ws')
  {
    Pow256Values();
    hide EncodeRow, Total, Fits, Pow256;
    o, vs', ws' := offset, vs, ws;
    o, vs', ws' := WriteField(buf, o, d.traceId, 4, vs', ws');
    o, vs', ws' := WriteField(buf, o, 0, 4, vs', ws');
    o, vs', ws' := WriteField(buf, o, d.spanId, 4, vs', ws');
    o, vs', ws' := WriteField(buf, o, d.seqId, 4, vs', ws');
    o, vs', ws' := WriteField(buf, o, d.totalLength, 4, vs', ws');
  }

  /** payload length, payload type, opCode */
  method WriteChunkFields(buf: array<byte>, offset: nat, d: PayloadData, ghost vs: seq<nat>, ghost ws: seq<nat>)
      returns (o: nat, ghost vs': seq<nat>, ghost ws': seq<nat>)
    requires Fits(vs, ws) && offset == Total(ws) && offset + 6 <= buf.Length
    requires buf[..offset] == EncodeRow(vs, ws)
    requires |d.payload| < 0x1_0000_0000
    modifies buf
    ensures o == offset + 6 == Total(ws')
    ensures vs' == vs + [|d.payload|, d.kind, d.opCode]
    ensures ws' == ws + [4, 1, 1]
    ensures Fits(vs', ws') && buf[..o] == EncodeRow(vs', ws')
  {
    Pow256Values();
    hide EncodeRow, Total, Fits, Pow256;
    o, vs', ws' := offset, vs, ws;
    o, vs', ws' := WriteField(buf, o, |d.payload|, 4, vs', ws');
    o, vs', ws' := WriteField(buf, o, d.kind, 1, vs', ws');
    o, vs', ws' := WriteField(buf, o, d.opCode, 1, vs', ws');
  }

  /** timestamp1 .. timestamp7 */
  method WriteTimestamps(buf: array<byte>, offset: nat, now: u32, ghost vs: seq<nat>, ghost ws: seq<nat>)
      returns (o: nat, ghost vs': seq<nat>, ghost ws': seq<nat>)
    requires Fits(vs, ws) && offset == Total(ws) && offset + 28 <= buf.Length
    requires buf[..offset] == EncodeRow(vs, ws)
    modifies buf
    ensures o == offset + 28 == Total(ws')
    ensures vs' == vs + [now, 0, 0, 0, 0, 0, 0]
    ensures ws' == ws + [4, 4, 4, 4, 4, 4, 4]
    ensures Fits(vs', ws') && buf[..o] == EncodeRow(vs', ws')
  {
    Pow256Values();
    hide EncodeRow, Total, Fits, Pow256;
    o, vs', ws' := offset, vs, ws;
    o, vs', ws' := WriteField(buf, o, now, 4, vs', ws');
    o, vs', ws' := WriteField(buf, o, 0, 4, vs', ws');
    o, vs', ws' := WriteField(buf, o, 0, 4, vs', ws');
    o, vs', ws' := WriteField(buf, o, 0, 4, vs', ws');
    o, vs', ws' := WriteField(buf, o, 0, 4, vs', ws');
    o, vs', ws' := WriteField(buf, o, 0, 4, vs', ws');
    o, vs', ws' := WriteField(buf, o, 0, 4, vs', ws');
  }

  /** content type, data type and the reserved tail of the header */
  method WriteTypes(buf: array<byte>, offset: nat, d: PayloadData, ghost vs: seq<nat>, ghost ws: seq<nat>)
      returns (o: nat, ghost vs': seq<nat>, ghost ws': seq<nat>)
    requires Fits(vs, ws) && offset == Total(ws) && offset + 12 <= buf.Length
    requires buf[..offset] == EncodeRow(vs, ws)
    modifies buf
    ensures o == offset + 12 == Total(ws')
    ensures vs' == vs + [d.contentType, d.dataType, 0, 0, 0]
    ensures ws' == ws + [1, 1, 2, 4, 4]
    ensures Fits(vs', ws') && buf[..o] == EncodeRow(vs', ws')
  {
    Pow256Values();
    hide EncodeRow, Total, Fits, Pow256;
    o, vs', ws' := offset, vs, ws;
    o, vs', ws' := WriteField(buf, o, d.contentType, 1, vs', ws');
    o, vs', ws' := WriteField(buf, o, d.dataType, 1, vs', ws');
    o, vs', ws' := WriteField(buf, o, 0, 2, vs', ws');
    o, vs', ws' := WriteField(buf, o, 0, 4, vs', ws');
    o, vs', ws' := WriteField(buf, o, 0, 4, vs', ws');
  }

  lemma RowInParts(f: Frame, a: seq<nat>, b: seq<nat>, c: seq<nat>, d: seq<nat>)
    requires a == [f.traceId, f.parentId, f.spanId, f.seqId, f.totalLength]
    requires b == [f.payloadLength, f.payloadType, f.opCode]
    requires c == [f.timestamp1, f.timestamp2, f.timestamp3, f.timestamp4, f.timestamp5, f.timestamp6, f.timestamp7]
    requires d == [f.contentType, f.dataType, f.extra1, f.extra2, f.extra3]
    ensures a + b + c + d == f.Row()
  {}

  lemma WrittenRowInParts(d: PayloadData, now: u32)
    requires |d.payload| < 0x1_0000_0000
    ensures var none: seq<nat> := [];
            none + [d.traceId, 0, d.spanId, d.seqId, d.totalLength] + [|d.payload|, d.kind, d.opCode]
            + [now, 0, 0, 0, 0, 0, 0] + [d.contentType, d.dataType, 0, 0, 0] == FrameOf(d, now).Row()
  {}

  ghost function WidthsInParts(): (ws: seq<nat>)
    ensures ws == PAYLOAD_WIDTHS
  {
    var none: seq<nat> := [];
    none + [4, 4, 4, 4, 4] + [4, 1, 1] + [4, 4, 4, 4, 4, 4, 4] + [1, 1, 2, 4, 4]
  }

  method WriteHeader(buf: array<byte>, d: PayloadData, now: u32) returns (offset: nat)
    requires buf.Length == HM_MESSAGE_PROTO_HEADER + |d.payload| && |d.payload| < 0x1_0000_0000
    modifies buf
    ensures offset == HM_MESSAGE_PROTO_HEADER
    ensures buf[..offset] == EncodeRow(FrameOf(d, now).Row(), PAYLOAD_WIDTHS)
  {
    offset := 0;
    ghost var vs: seq<nat>, ws: seq<nat> := [], [];
    offset, vs, ws := WriteIds(buf, offset, d, vs, ws);
    offset, vs, ws := WriteChunkFields(buf, offset, d, vs, ws);
    offset, vs, ws := WriteTimestamps(buf, offset, now, vs, ws);
    offset, vs, ws := WriteTypes(buf, offset, d, vs, ws);
    WrittenRowInParts(d, now);
    assert ws == WidthsInParts();
  }

  method BuildPayload(d: PayloadData, now: u32) returns (bin: seq<byte>)
    requires |d.payload| < 0x1_0000_0000
    ensures bin == Encode(FrameOf(d, now))
  {
    var size := HM_MESSAGE_PROTO_HEADER + |d.payload|;
    var buf := new byte[size](_ => 0);
    var offset := WriteHeader(buf, d, now);
    Fill(buf, offset, d.payload);
    bin := buf[..];
  }

  /** readUInt8 / readUInt16LE / readUInt32LE at `offset`. */
  method ReadField(buf: seq<byte>, offset: nat, w: nat, ghost ws: seq<nat>)
      returns (v: nat, next: nat, ghost ws': seq<nat>)
    requires offset == Total(ws) && offset + w <= |buf|
    ensures next == offset + w == Total(ws') && ws' == ws + [w]
    ensures v < Pow256(w)
    ensures DecodeRow(buf, ws') == DecodeRow(buf, ws) + [v]
  {
    v := 0;
    var k: nat := w;
    assert buf[offset + w..offset + w] == [];
    while k > 0
      invariant k <= w
      invariant v == FromLE(buf[offset + k..offset + w])
    {
      k := k - 1;
      assert buf[offset + k..offset + w][1..] == buf[offset + k + 1..offset + w];
      v := buf[offset + k] + 256 * v;
    }
    DecodeRowSnoc(buf, ws, w);
    ToFromLE(buf[offset..offset + w]);
    next, ws' := offset + w, ws + [w];
    TotalSnoc(ws, w);
  }

  lemma TotalSnoc(ws: seq<nat>, w: nat)
    ensures Total(ws + [w]) == Total(ws) + w
  {
    TotalAppend(ws, [w]);
    assert [w][1..] == [];
  }

  lemma {:induction false} DecodeRowSnoc(s: seq<byte>, ws: seq<nat>, w: nat)
    requires |s| >= Total(ws) + w
    ensures |s| >= Total(ws + [w])
    ensures DecodeRow(s, ws + [w]) == DecodeRow(s, ws) + [FromLE(s[Total(ws)..Total(ws) + w])]
  {
    hide FromLE;
    TotalSnoc(ws, w);
    if ws == [] {
      var one: seq<nat> := [w];
      assert ws + one == one && one[1..] == ws;
      assert DecodeRow(s, one) == [FromLE(s[..w])] + DecodeRow(s[w..], ws);
    } else {
      var rest, last := s[ws[0]..], FromLE(s[Total(ws)..Total(ws) + w]);
      DecodeRowSnoc(rest, ws[1..], w);
      assert rest[Total(ws[1..])..Total(ws[1..]) + w] == s[Total(ws)..Total(ws) + w];
      assert (ws + [w])[1..] == ws[1..] + [w];
      assert DecodeRow(s, ws + [w]) == [FromLE(s[..ws[0]])] + DecodeRow(rest, ws[1..] + [w]);
    }
  }

  /** traceId, parentId, spanId, seqId, message total length */
  method ReadIds(buf: seq<byte>, offset: nat, ghost ws: seq<nat>)
      returns (traceId: u32, parentId: u32, spanId: u32, seqId: u32, totalLength: u32, o: nat, ghost ws': seq<nat>)
    requires offset == Total(ws) && offset + 20 <= |buf|
    ensures o == offset + 20 == Total(ws') && ws' == ws + [4, 4, 4, 4, 4]
    ensures DecodeRow(buf, ws') == DecodeRow(buf, ws) + [traceId, parentId, spanId, seqId, totalLength]
  {
    Pow256Values();
    hide DecodeRow, Total, FromLE, Pow256;
    o, ws' := offset, ws;
    traceId, o, ws' := ReadField(buf, o, 4, ws');
    parentId, o, ws' := ReadField(buf, o, 4, ws');
    spanId, o, ws' := ReadField(buf, o, 4, ws');
    seqId, o, ws' := ReadField(buf, o, 4, ws');
    totalLength, o, ws' := ReadField(buf, o, 4, ws');
  }

  /** payload length, payload type, opCode */
  method ReadChunkFields(buf: seq<byte>, offset: nat, ghost ws: seq<nat>)
      returns (payloadLength: u32, payloadType: u8, opCode: u8, o: nat, ghost ws': seq<nat>)
    requires offset == Total(ws) && offset + 6 <= |buf|
    ensures o == offset + 6 == Total(ws') && ws' == ws + [4, 1, 1]
    ensures DecodeRow(buf, ws') == DecodeRow(buf, ws) + [payloadLength, payloadType, opCode]
  {
    Pow256Values();
    hide DecodeRow, Total, FromLE, Pow256;
    o, ws' := offset, ws;
    payloadLength, o, ws' := ReadField(buf, o, 4, ws');
    payloadType, o, ws' := ReadField(buf, o, 1, ws');
    opCode, o, ws' := ReadField(buf, o, 1, ws');
  }

  /** timestamp1 .. timestamp7 */
  method ReadTimestamps(buf: seq<byte>, offset: nat, ghost ws: seq<nat>)
      returns (t1: u32, t2: u32, t3: u32, t4: u32, t5: u32, t6: u32, t7: u32, o: nat, ghost ws': seq<nat>)
    requires offset == Total(ws) && offset + 28 <= |buf|
    ensures o == offset + 28 == Total(ws') && ws' == ws + [4, 4, 4, 4, 4, 4, 4]
    ensures DecodeRow(buf, ws') == DecodeRow(buf, ws) + [t1, t2, t3, t4, t5, t6, t7]
  {
    Pow256Values();
    hide DecodeRow, Total, FromLE, Pow256;
    o, ws' := offset, ws;
    t1, o, ws' := ReadField(buf, o, 4, ws');
    t2, o, ws' := ReadField(buf, o, 4, ws');
    t3, o, ws' := ReadField(buf, o, 4, ws');
    t4, o, ws' := ReadField(buf, o, 4, ws');
    t5, o, ws' := ReadField(buf, o, 4, ws');
    t6, o, ws' := ReadField(buf, o, 4, ws');
    t7, o, ws' := ReadField(buf, o, 4, ws');
  }

  /** content type, data type and the reserved tail of the header */
  method ReadTypes(buf: seq<byte>, offset: nat, ghost ws: seq<nat>)
      returns (contentType: u8, dataType: u8, extra1: u16, extra2: u32, extra3: u32, o: nat, ghost ws': seq<nat>)
    requires offset == Total(ws) && offset + 12 <= |buf|
    ensures o == offset + 12 == Total(ws') && ws' == ws + [1, 1, 2, 4, 4]
    ensures DecodeRow(buf, ws') == DecodeRow(buf, ws) + [contentType, dataType, extra1, extra2, extra3]
  {
    Pow256Values();
    hide DecodeRow, Total, FromLE, Pow256;
    o, ws' := offset, ws;
    contentType, o, ws' := ReadField(buf, o, 1, ws');
    dataType, o, ws' := ReadField(buf, o, 1, ws');
    extra1, o, ws' := ReadField(buf, o, 2, ws');
    extra2, o, ws' := ReadField(buf, o, 4, ws');
    extra3, o, ws' := ReadField(buf, o, 4, ws');
  }

  method ReadHeader(buf: seq<byte>) returns (f: Frame, ghost ws: seq<nat>)
    requires |buf| >= HM_MESSAGE_PROTO_HEADER
    ensures ws == WidthsInParts() && Total(ws) == HM_MESSAGE_PROTO_HEADER && f.Row() == DecodeRow(buf, ws)
    ensures f.payload == buf[HM_MESSAGE_PROTO_HEADER..]
  {
    var offset := 0;
    ws := [];
    var traceId, parentId, spanId, seqId, totalLength;
    traceId, parentId, spanId, seqId, totalLength, offset, ws := ReadIds(buf, offset, ws);
    ghost var a: seq<nat> := [traceId, parentId, spanId, seqId, totalLength];
    assert DecodeRow(buf, ws) == a;
    var payloadLength, payloadType, opCode;
    payloadLength, payloadType, opCode, offset, ws := ReadChunkFields(buf, offset, ws);
    ghost var b: seq<nat> := [payloadLength, payloadType, opCode];
    assert DecodeRow(buf, ws) == a + b;
    var t1, t2, t3, t4, t5, t6, t7;
    t1, t2, t3, t4, t5, t6, t7, offset, ws := ReadTimestamps(buf, offset, ws);
    ghost var c: seq<nat> := [t1, t2, t3, t4, t5, t6, t7];
    assert DecodeRow(buf, ws) == a + b + c;
    var contentType, dataType, extra1, extra2, extra3;
    contentType, dataType, extra1, extra2, extra3, offset, ws := ReadTypes(buf, offset, ws);
    ghost var d: seq<nat> := [contentType, dataType, extra1, extra2, extra3];
    assert DecodeRow(buf, ws) == a + b + c + d;
    f := Frame(traceId, parentId, spanId, seqId, totalLength, payloadLength, payloadType, opCode,
               t1, t2, t3, t4, t5, t6, t7, contentType, dataType, extra1, extra2, extra3, buf[offset..]);
    RowInParts(f, a, b, c, d);
  }

  method ReadPayload(buf: seq<byte>) returns (r: Result<Frame>)
    ensures r == Decode(buf)
  {
    if |buf| < HM_MESSAGE_PROTO_HEADER {
      return RangeError;
    }
    ghost var ws;
    var f;
    f, ws := ReadHeader(buf);
    FrameOfRowOfRow(f);
    r := Ok(f);
  }

  /** flag, version, type and the two ports */
  method WriteVersionAndPorts(buf: array<byte>, offset: nat, b: Bin, ghost vs: seq<nat>, ghost ws: seq<nat>)
      returns (o: nat, ghost vs': seq<nat>, ghost ws': seq<nat>)
    requires Fits(vs, ws) && offset == Total(ws) && offset + 8 <= buf.Length
    requires buf[..offset] == EncodeRow(vs, ws)
    modifies buf
    ensures o == offset + 8 == Total(ws')
    ensures vs' == vs + [b.flag, b.version, b.kind, b.port1, b.port2]
    ensures ws' == ws + [1, 1, 2, 2, 2]
    ensures Fits(vs', ws') && buf[..o] == EncodeRow(vs', ws')
  {
    Pow256Values();
    hide EncodeRow, Total, Fits, Pow256;
    o, vs', ws' := offset, vs, ws;
    o, vs', ws' := WriteField(buf, o, b.flag, 1, vs', ws');
    o, vs', ws' := WriteField(buf, o, b.version, 1, vs', ws');
    o, vs', ws' := WriteField(buf, o, b.kind, 2, vs', ws');
    o, vs', ws' := WriteField(buf, o, b.port1, 2, vs', ws');
    o, vs', ws' := WriteField(buf, o, b.port2, 2, vs', ws');
  }

  /** appId and extra */
  method WriteApp(buf: array<byte>, offset: nat, b: Bin, ghost vs: seq<nat>, ghost ws: seq<nat>)
      returns (o: nat, ghost vs': seq<nat>, ghost ws': seq<nat>)
    requires Fits(vs, ws) && offset == Total(ws) && offset + 8 <= buf.Length
    requires buf[..offset] == EncodeRow(vs, ws)
    modifies buf
    ensures o == offset + 8 == Total(ws')
    ensures vs' == vs + [b.appId, b.extra]
    ensures ws' == ws + [4, 4]
    ensures Fits(vs', ws') && buf[..o] == EncodeRow(vs', ws')
  {
    Pow256Values();
    hide EncodeRow, Total, Fits, Pow256;
    o, vs', ws' := offset, vs, ws;
    o, vs', ws' := WriteField(buf, o, b.appId, 4, vs', ws');
    o, vs', ws' := WriteField(buf, o, b.extra, 4, vs', ws');
  }

  /** buildBin: the outer header, refused when the payload is over the chunk size. */
  method BuildBin(b: Bin) returns (r: Result<seq<byte>>)
    ensures r == EncodeBin(b)
  {
    if |b.payload| > MESSAGE_PAYLOAD {
      return TooLong(|b.payload|);
    }
    BinWidthsTotal();
    BinRowFits(b);
    var buf := new byte[MESSAGE_HEADER + |b.payload|](_ => 0);
    var offset := 0;
    ghost var vs: seq<nat>, ws: seq<nat> := [], [];
    assert Fits(vs, ws) && Total(ws) == 0 && EncodeRow(vs, ws) == [];
    hide EncodeRow, Total, Fits, Pow256, ToLE;
    offset, vs, ws := WriteVersionAndPorts(buf, offset, b, vs, ws);
    assert vs == [b.flag, b.version, b.kind, b.port1, b.port2] && ws == [1, 1, 2, 2, 2];
    offset, vs, ws := WriteApp(buf, offset, b, vs, ws);
    assert vs == [b.flag, b.version, b.kind, b.port1, b.port2] + [b.appId, b.extra] == b.Row();
    assert ws == [1, 1, 2, 2, 2] + [4, 4] == BIN_WIDTHS;
    Fill(buf, offset, b.payload);
    r := Ok(buf[..]);
  }

  /** flag, version, type and the two ports */
  method ReadVersionAndPorts(buf: seq<byte>, offset: nat, ghost ws: seq<nat>)
      returns (flag: u8, version: u8, kind: u16, port1: u16, port2: u16, o: nat, ghost ws': seq<nat>)
    requires offset == Total(ws) && offset + 8 <= |buf|
    ensures o == offset + 8 == Total(ws') && ws' == ws + [1, 1, 2, 2, 2]
    ensures DecodeRow(buf, ws') == DecodeRow(buf, ws) + [flag, version, kind, port1, port2]
  {
    Pow256Values();
    hide DecodeRow, Total, FromLE, Pow256;
    o, ws' := offset, ws;
    flag, o, ws' := ReadField(buf, o, 1, ws');
    version, o, ws' := ReadField(buf, o, 1, ws');
    kind, o, ws' := ReadField(buf, o, 2, ws');
    port1, o, ws' := ReadField(buf, o, 2, ws');
    port2, o, ws' := ReadField(buf, o, 2, ws');
  }

  /** appId and extra */
  method ReadApp(buf: seq<byte>, offset: nat, ghost ws: seq<nat>)
      returns (appId: u32, extra: u32, o: nat, ghost ws': seq<nat>)
    requires offset == Total(ws) && offset + 8 <= |buf|
    ensures o == offset + 8 == Total(ws') && ws' == ws + [4, 4]
    ensures DecodeRow(buf, ws') == DecodeRow(buf, ws) + [appId, extra]
  {
    Pow256Values();
    hide DecodeRow, Total, FromLE, Pow256;
    o, ws' := offset, ws;
    appId, o, ws' := ReadField(buf, o, 4, ws');
    extra, o, ws' := ReadField(buf, o, 4, ws');
  }

  /** readBin */
  method ReadBin(buf: seq<byte>) returns (r: Result<Bin>)
    ensures r == DecodeBin(buf)
  {
    if |buf| < MESSAGE_HEADER {
      return RangeError;
    }
    BinWidthsTotal();
    var offset := 0;
    ghost var ws: seq<nat> := [];
    assert DecodeRow(buf, ws) == [] && Total(ws) == 0;
    hide FromLE, DecodeRow, EncodeRow, Total;
    var flag, version, kind, port1, port2;
    flag, version, kind, port1, port2, offset, ws := ReadVersionAndPorts(buf, offset, ws);
    ghost var a: seq<nat> := [flag, version, kind, port1, port2];
    assert DecodeRow(buf, ws) == a && ws == [1, 1, 2, 2, 2];
    var appId, extra;
    appId, extra, offset, ws := ReadApp(buf, offset, ws);
    assert ws == [1, 1, 2, 2, 2] + [4, 4] == BIN_WIDTHS;
    assert DecodeRow(buf, BIN_WIDTHS) == a + [appId, extra];
    r := Ok(Bin(flag, version, kind, port1, port2, appId, extra, buf[offset..]));
  }
}
