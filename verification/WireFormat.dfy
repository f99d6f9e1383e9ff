/** The byte layout of the watch message protocol.
 *
 * Every header is a row of little-endian unsigned fields, so both headers (the
 * 66-byte payload header and the 16-byte outer header of the device) are given
 * as a row of widths, and one codec serves both.
 */
module WireFormat {

  type byte = b: int | 0 <= b < 0x100
  type u8 = b: int | 0 <= b < 0x100
  type u16 = n: int | 0 <= n < 0x1_0000
  type u32 = n: int | 0 <= n < 0x1_0000_0000

  /** Buffer reads and writes outside the buffer throw a RangeError; buildBin throws on a long payload. */
  datatype Result<+T> = Ok(value: T) | RangeError | TooLong(size: nat)

  // ---------- one little-endian field ----------

  function Pow256(w: nat): (p: nat)
    ensures p > 0
  {
    if w == 0 then 1 else 256 * Pow256(w - 1)
  }

  function ToLE(n: nat, w: nat): (s: seq<byte>)
    ensures |s| == w
  {
    if w == 0 then [] else [n % 256] + ToLE(n / 256, w - 1)
  }

  function FromLE(s: seq<byte>): nat {
    if s == [] then 0 else s[0] + 256 * FromLE(s[1..])
  }

  lemma {:induction false} FromToLE(n: nat, w: nat)
    requires n < Pow256(w)
    ensures FromLE(ToLE(n, w)) == n
  {
    if w > 0 {
      assert n / 256 < Pow256(w - 1);
      FromToLE(n / 256, w - 1);
      assert ToLE(n, w)[1..] == ToLE(n / 256, w - 1);
    }
  }

  lemma LowByte(b: byte, rest: nat)
    ensures (b + 256 * rest) % 256 == b && (b + 256 * rest) / 256 == rest
  {}

  lemma {:induction false} ToFromLE(s: seq<byte>)
    ensures FromLE(s) < Pow256(|s|)
    ensures ToLE(FromLE(s), |s|) == s
  {
    if s != [] {
      var rest := FromLE(s[1..]);
      var n := s[0] + 256 * rest;
      ToFromLE(s[1..]);
      LowByte(s[0], rest);
      assert ToLE(n, |s|) == [s[0]] + ToLE(rest, |s| - 1) == [s[0]] + s[1..];
    }
  }

  // ---------- a row of fields ----------

  function Total(ws: seq<nat>): nat {
    if ws == [] then 0 else ws[0] + Total(ws[1..])
  }

  predicate Fits(vs: seq<nat>, ws: seq<nat>) {
    |vs| == |ws| && forall i :: 0 <= i < |vs| ==> vs[i] < Pow256(ws[i])
  }

  function EncodeRow(vs: seq<nat>, ws: seq<nat>): (s: seq<byte>)
    requires |vs| == |ws|
    ensures |s| == Total(ws)
  {
    if ws == [] then [] else ToLE(vs[0], ws[0]) + EncodeRow(vs[1..], ws[1..])
  }

  function DecodeRow(s: seq<byte>, ws: seq<nat>): (vs: seq<nat>)
    requires |s| >= Total(ws)
    ensures |vs| == |ws|
  {
    if ws == [] then [] else [FromLE(s[..ws[0]])] + DecodeRow(s[ws[0]..], ws[1..])
  }

  lemma DecodeRowCons(head: seq<byte>, rest: seq<byte>, ws: seq<nat>)
    requires ws != [] && |head| == ws[0] && |rest| >= Total(ws[1..])
    ensures DecodeRow(head + rest, ws) == [FromLE(head)] + DecodeRow(rest, ws[1..])
  {
    assert (head + rest)[..ws[0]] == head && (head + rest)[ws[0]..] == rest;
  }

  /** Reading back a row that was written gives the values, whatever follows it. */
  lemma {:induction false} DecodeEncodeRow(vs: seq<nat>, ws: seq<nat>, tail: seq<byte>)
    requires Fits(vs, ws)
    ensures DecodeRow(EncodeRow(vs, ws) + tail, ws) == vs
  {
    if ws != [] {
      var head, rest := ToLE(vs[0], ws[0]), EncodeRow(vs[1..], ws[1..]) + tail;
      assert EncodeRow(vs, ws) + tail == head + rest;
      FromToLE(vs[0], ws[0]);
      assert Fits(vs[1..], ws[1..]);
      DecodeEncodeRow(vs[1..], ws[1..], tail);
      DecodeRowCons(head, rest, ws);
    }
  }

  /** Writing a row that was read gives the bytes it was read from. */
  lemma {:induction false} EncodeDecodeRow(s: seq<byte>, ws: seq<nat>)
    requires |s| >= Total(ws)
    ensures Fits(DecodeRow(s, ws), ws)
    ensures EncodeRow(DecodeRow(s, ws), ws) == s[..Total(ws)]
  {
    if ws != [] {
      ToFromLE(s[..ws[0]]);
      EncodeDecodeRow(s[ws[0]..], ws[1..]);
      var vs := DecodeRow(s, ws);
      assert vs[1..] == DecodeRow(s[ws[0]..], ws[1..]);
      assert forall i :: 1 <= i < |vs| ==> vs[i] == vs[1..][i - 1] && ws[i] == ws[1..][i - 1];
    }
  }

  lemma {:induction false} RowThenTail(s: seq<byte>, ws: seq<nat>)
    requires |s| >= Total(ws)
    ensures Fits(DecodeRow(s, ws), ws)
    ensures EncodeRow(DecodeRow(s, ws), ws) + s[Total(ws)..] == s
  {
    EncodeDecodeRow(s, ws);
    var n := Total(ws);
    hide DecodeRow, EncodeRow, Fits, Total;
    assert s[..n] + s[n..] == s;
  }

  lemma {:induction false} EncodeRowSnoc(vs: seq<nat>, ws: seq<nat>, v: nat, w: nat)
    requires |vs| == |ws|
    ensures EncodeRow(vs + [v], ws + [w]) == EncodeRow(vs, ws) + ToLE(v, w)
  {
    hide ToLE;
    if ws == [] {
      assert EncodeRow([v][1..], [w][1..]) == [];
    } else {
      EncodeRowSnoc(vs[1..], ws[1..], v, w);
      assert (vs + [v])[1..] == vs[1..] + [v] && (ws + [w])[1..] == ws[1..] + [w];
    }
  }

  // ---------- the 66-byte payload header ----------

  const HM_MESSAGE_PROTO_HEADER := 66
  const PAYLOAD_WIDTHS: seq<nat> :=
    [4, 4, 4, 4, 4, 4, 1, 1, 4, 4, 4, 4, 4, 4, 4, 1, 1, 2, 4, 4]

  /** One frame as readPayload returns it: every header field and the bytes behind it. */
  datatype Frame = Frame(
    traceId: u32, parentId: u32, spanId: u32, seqId: u32, totalLength: u32, payloadLength: u32,
    payloadType: u8, opCode: u8,
    timestamp1: u32, timestamp2: u32, timestamp3: u32, timestamp4: u32, timestamp5: u32, timestamp6: u32,
    timestamp7: u32,
    contentType: u8, dataType: u8, extra1: u16, extra2: u32, extra3: u32,
    payload: seq<byte>)
  {
    function Row(): seq<nat> {
      [traceId, parentId, spanId, seqId, totalLength, payloadLength, payloadType, opCode,
       timestamp1, timestamp2, timestamp3, timestamp4, timestamp5, timestamp6, timestamp7,
       contentType, dataType, extra1, extra2, extra3]
    }
  }

  lemma Pow256Values()
    ensures Pow256(1) == 0x100 && Pow256(2) == 0x1_0000 && Pow256(4) == 0x1_0000_0000
  {
    assert Pow256(0) == 1 && Pow256(1) == 256 && Pow256(2) == 65536 && Pow256(3) == 256 * 65536;
  }

  lemma {:induction false} TotalAppend(a: seq<nat>, b: seq<nat>)
    ensures Total(a + b) == Total(a) + Total(b)
  {
    if a == [] {
      assert a + b == b;
    } else {
      TotalAppend(a[1..], b);
      assert (a + b)[1..] == a[1..] + b;
    }
  }

  lemma TotalFour(a: nat, b: nat, c: nat, d: nat)
    ensures Total([a, b, c, d]) == a + b + c + d
  {
    assert [a, b, c, d][1..] == [b, c, d];
    assert [b, c, d][1..] == [c, d];
    assert [c, d][1..] == [d];
    var none: seq<nat> := [];
    assert [d][1..] == none;
    assert Total([d]) == d;
    assert Total([c, d]) == c + Total([d]);
    assert Total([b, c, d]) == b + Total([c, d]);
  }

  lemma PayloadWidthsTotal()
    ensures Total(PAYLOAD_WIDTHS) == HM_MESSAGE_PROTO_HEADER
  {
    TotalFour(4, 4, 4, 4);
    TotalFour(4, 4, 1, 1);
    TotalFour(4, 4, 4, 1);
    TotalFour(1, 2, 4, 4);
    var a: seq<nat>, b: seq<nat>, c: seq<nat>, d: seq<nat> := [4, 4, 4, 4], [4, 4, 1, 1], [4, 4, 4, 1], [1, 2, 4, 4];
    TotalAppend(a, b);
    TotalAppend(a + b, a);
    TotalAppend(a + b + a, c);
    TotalAppend(a + b + a + c, d);
    assert a + b == [4, 4, 4, 4, 4, 4, 1, 1];
    assert a + b + a == [4, 4, 4, 4, 4, 4, 1, 1, 4, 4, 4, 4];
    assert a + b + a + c == [4, 4, 4, 4, 4, 4, 1, 1, 4, 4, 4, 4, 4, 4, 4, 1];
    assert a + b + a + c + d == PAYLOAD_WIDTHS;
  }

  function Encode(f: Frame): seq<byte> {
    EncodeRow(f.Row(), PAYLOAD_WIDTHS) + f.payload
  }

  function FrameOfRow(r: seq<nat>, payload: seq<byte>): Frame
    requires Fits(r, PAYLOAD_WIDTHS)
  {
    Pow256Values();
    Frame(r[0], r[1], r[2], r[3], r[4], r[5], r[6], r[7], r[8], r[9], r[10], r[11], r[12], r[13], r[14],
          r[15], r[16], r[17], r[18], r[19], payload)
  }

  lemma RowOfFrameOfRow(r: seq<nat>, payload: seq<byte>)
    requires Fits(r, PAYLOAD_WIDTHS)
    ensures FrameOfRow(r, payload).Row() == r
  {
    var back := FrameOfRow(r, payload).Row();
    assert |back| == |r| == 20;
    assert back == [r[0], r[1], r[2], r[3], r[4], r[5], r[6], r[7], r[8], r[9], r[10], r[11], r[12], r[13],
                    r[14], r[15], r[16], r[17], r[18], r[19]];
  }

  lemma FrameOfRowOfRow(f: Frame)
    ensures Fits(f.Row(), PAYLOAD_WIDTHS) && FrameOfRow(f.Row(), f.payload) == f
  {
    RowFits(f);
  }

  /** readPayload: a buffer shorter than the header makes one of the reads throw. */
  function Decode(s: seq<byte>): Result<Frame> {
    PayloadWidthsTotal();
    if |s| < HM_MESSAGE_PROTO_HEADER then RangeError
    else
      EncodeDecodeRow(s, PAYLOAD_WIDTHS);
      Ok(FrameOfRow(DecodeRow(s, PAYLOAD_WIDTHS), s[HM_MESSAGE_PROTO_HEADER..]))
  }

  lemma RowFits(f: Frame)
    ensures Fits(f.Row(), PAYLOAD_WIDTHS)
  {
    Pow256Values();
    var vs, ws := f.Row(), PAYLOAD_WIDTHS;
    assert |vs| == |ws| == 20;
    forall i | 0 <= i < |vs|
      ensures vs[i] < Pow256(ws[i])
    {
      assert i <= 5 || i == 6 || i == 7 || 8 <= i <= 14 || i == 15 || i == 16 || i == 17 || i >= 18;
    }
  }

  /** Byte-exact round trip of a frame: any frame, any header values, any payload. */
  lemma DecodeEncode(f: Frame)
    ensures Decode(Encode(f)) == Ok(f)
  {
    hide FrameOfRow, EncodeRow, DecodeRow, Total, Fits, Frame.Row;
    PayloadWidthsTotal();
    FrameOfRowOfRow(f);
    DecodeEncodeRow(f.Row(), PAYLOAD_WIDTHS, f.payload);
    assert Encode(f)[HM_MESSAGE_PROTO_HEADER..] == f.payload;
  }

  /** The other direction: decoding loses nothing, and only short buffers are refused. */
  lemma EncodeDecode(s: seq<byte>)
    ensures Decode(s).RangeError? <==> |s| < HM_MESSAGE_PROTO_HEADER
    ensures Decode(s).Ok? ==> Encode(Decode(s).value) == s
  {
    PayloadWidthsTotal();
    if |s| >= HM_MESSAGE_PROTO_HEADER {
      RowThenTail(s, PAYLOAD_WIDTHS);
      RowOfFrameOfRow(DecodeRow(s, PAYLOAD_WIDTHS), s[HM_MESSAGE_PROTO_HEADER..]);
      hide FrameOfRow, EncodeRow, DecodeRow, Total, Fits;
    }
  }

  // ---------- the layout ----------

  /** The unsigned little-endian numbers at an offset. */
  function U16At(b: seq<byte>, i: nat): int
    requires i + 2 <= |b|
  {
    b[i] as int + 0x100 * (b[i + 1] as int)
  }

  function U32At(b: seq<byte>, i: nat): int
    requires i + 4 <= |b|
  {
    b[i] as int + 0x100 * (b[i + 1] as int) + 0x1_0000 * (b[i + 2] as int) + 0x100_0000 * (b[i + 3] as int)
  }

  lemma FieldWidths(s: seq<byte>)
    ensures |s| == 1 ==> FromLE(s) == s[0]
    ensures |s| == 2 ==> FromLE(s) == U16At(s, 0)
    ensures |s| == 4 ==> FromLE(s) == U32At(s, 0)
  {
    if |s| == 1 {
      assert FromLE(s[1..]) == 0;
    } else if |s| == 2 {
      assert FromLE(s[1..][1..]) == 0 && FromLE(s[1..]) == s[1];
    } else if |s| == 4 {
      assert FromLE(s[1..][1..][1..][1..]) == 0 && FromLE(s[1..][1..][1..]) == s[3];
      assert FromLE(s[1..][1..]) == U16At(s, 2);
      assert FromLE(s[1..]) == s[1] as int + 0x100 * U16At(s, 2);
    }
  }

  lemma Slices(s: seq<byte>, a: nat, b: nat, w: nat)
    requires a + b + w <= |s|
    ensures s[a..][b..b + w] == s[a + b..a + b + w]
  {}

  /** Where field k of a row starts. */
  lemma {:induction false} FieldAt(s: seq<byte>, ws: seq<nat>, k: nat)
    requires |s| >= Total(ws) && k < |ws|
    ensures Total(ws[..k]) + ws[k] <= Total(ws)
    ensures DecodeRow(s, ws)[k] == FromLE(s[Total(ws[..k])..Total(ws[..k]) + ws[k]])
  {
    hide FromLE;
    if k == 0 {
      assert Total(ws[..0]) == 0;
    } else {
      var t, r := s[ws[0]..], ws[1..];
      assert DecodeRow(s, ws)[k] == DecodeRow(t, r)[k - 1];
      FieldAt(t, r, k - 1);
      var from := Total(r[..k - 1]);
      assert ws[..k][1..] == r[..k - 1];
      assert Total(ws[..k]) == ws[0] + from && Total(ws) == ws[0] + Total(r);
      hide DecodeRow, Total;
      Slices(s, ws[0], from, r[k - 1]);
    }
  }

  lemma {:induction false} FieldIs(s: seq<byte>, ws: seq<nat>, k: nat, w: nat, i: nat)
    requires |s| >= Total(ws) && k < |ws| && ws[k] == w && Total(ws[..k]) == i && w in [1, 2, 4]
    ensures i + w <= |s| && DecodeRow(s, ws)[k] == FieldOf(s, i, w)
  {
    FieldAt(s, ws, k);
    FieldWidths(s[i..i + w]);
    hide DecodeRow, Total, FromLE;
  }

  lemma {:induction false} NextOffset(ws: seq<nat>, k: nat)
    requires k < |ws|
    ensures Total(ws[..k + 1]) == Total(ws[..k]) + ws[k]
  {
    assert ws[..k + 1] == ws[..k] + [ws[k]];
    TotalAppend(ws[..k], [ws[k]]);
    assert Total([ws[k]]) == ws[k];
    hide Total;
  }

  function FieldOf(b: seq<byte>, i: nat, w: nat): int
    requires w in [1, 2, 4] && i + w <= |b|
  {
    if w == 1 then b[i] else if w == 2 then U16At(b, i) else U32At(b, i)
  }

  const PAYLOAD_OFFSETS: seq<nat> :=
    [0, 4, 8, 12, 16, 20, 24, 25, 26, 30, 34, 38, 42, 46, 50, 54, 55, 56, 58, 62]

  lemma {:induction false} PayloadOffsets(k: nat)
    requires k < |PAYLOAD_WIDTHS|
    ensures |PAYLOAD_OFFSETS| == |PAYLOAD_WIDTHS| && Total(PAYLOAD_WIDTHS[..k]) == PAYLOAD_OFFSETS[k]
  {
    if k > 0 {
      PayloadOffsets(k - 1);
      NextOffset(PAYLOAD_WIDTHS, k - 1);
    }
    hide Total;
  }

  /** THE LAYOUT of a frame on the wire: each field at its offset, low byte first, and the payload behind the header. */
  lemma {:induction false} LayoutIs(f: Frame)
    ensures var b := Encode(f);
            && |b| == 66 + |f.payload| && b[66..] == f.payload
            && U32At(b, 0) == f.traceId && U32At(b, 4) == f.parentId && U32At(b, 8) == f.spanId
            && U32At(b, 12) == f.seqId && U32At(b, 16) == f.totalLength && U32At(b, 20) == f.payloadLength
            && b[24] == f.payloadType && b[25] == f.opCode
            && U32At(b, 26) == f.timestamp1 && U32At(b, 30) == f.timestamp2 && U32At(b, 34) == f.timestamp3
            && U32At(b, 38) == f.timestamp4 && U32At(b, 42) == f.timestamp5 && U32At(b, 46) == f.timestamp6
            && U32At(b, 50) == f.timestamp7 && b[54] == f.contentType && b[55] == f.dataType
            && U16At(b, 56) == f.extra1 && U32At(b, 58) == f.extra2 && U32At(b, 62) == f.extra3
  {
    hide Encode, EncodeRow, Total, Fits, U16At, U32At;
    HeaderThenPayload(f);
    FieldIn(f, 0); FieldIn(f, 1); FieldIn(f, 2); FieldIn(f, 3); FieldIn(f, 4); FieldIn(f, 5); FieldIn(f, 6);
    FieldIn(f, 7); FieldIn(f, 8); FieldIn(f, 9); FieldIn(f, 10); FieldIn(f, 11); FieldIn(f, 12); FieldIn(f, 13);
    FieldIn(f, 14); FieldIn(f, 15); FieldIn(f, 16); FieldIn(f, 17); FieldIn(f, 18); FieldIn(f, 19);
  }

  lemma HeaderThenPayload(f: Frame)
    ensures |Encode(f)| == 66 + |f.payload| && Encode(f)[66..] == f.payload
  {
    PayloadWidthsTotal();
    hide EncodeRow;
  }

  lemma FieldIn(f: Frame, k: nat)
    requires k < 20
    ensures PAYLOAD_OFFSETS[k] + PAYLOAD_WIDTHS[k] <= |Encode(f)| && PAYLOAD_WIDTHS[k] in [1, 2, 4]
    ensures f.Row()[k] == FieldOf(Encode(f), PAYLOAD_OFFSETS[k], PAYLOAD_WIDTHS[k])
  {
    PayloadWidthsTotal();
    RowFits(f);
    DecodeEncodeRow(f.Row(), PAYLOAD_WIDTHS, f.payload);
    PayloadOffsets(k);
    WidthOk(k);
    hide EncodeRow, DecodeRow, Total, Fits, FieldOf;
    FieldIs(Encode(f), PAYLOAD_WIDTHS, k, PAYLOAD_WIDTHS[k], PAYLOAD_OFFSETS[k]);
  }

  lemma WidthOk(k: nat)
    requires k < 20
    ensures PAYLOAD_WIDTHS[k] in [1, 2, 4]
  {}

  // ---------- the 16-byte outer header of the device ----------

  const MESSAGE_SIZE := 3600
  const MESSAGE_HEADER := 16
  const MESSAGE_PAYLOAD := MESSAGE_SIZE - MESSAGE_HEADER
  const HM_MESSAGE_PROTO_PAYLOAD := MESSAGE_PAYLOAD - HM_MESSAGE_PROTO_HEADER
  const BIN_WIDTHS: seq<nat> := [1, 1, 2, 2, 2, 4, 4]

  datatype Bin = Bin(flag: u8, version: u8, kind: u16, port1: u16, port2: u16, appId: u32, extra: u32,
                     payload: seq<byte>)
  {
    function Row(): seq<nat> {
      [flag, version, kind, port1, port2, appId, extra]
    }
  }

  lemma BinWidthsTotal()
    ensures Total(BIN_WIDTHS) == MESSAGE_HEADER
  {
    TotalFour(1, 1, 2, 2);
    var a: seq<nat>, b: seq<nat>, none: seq<nat> := [1, 1, 2, 2], [2, 4, 4], [];
    assert b[1..] == [4, 4] && b[1..][1..] == [4] && b[1..][1..][1..] == none;
    assert Total(b[1..][1..]) == 4;
    assert Total(b[1..]) == 8;
    TotalAppend(a, b);
    assert a + b == BIN_WIDTHS;
  }

  lemma BinRowFits(b: Bin)
    ensures Fits(b.Row(), BIN_WIDTHS)
  {
    Pow256Values();
    var vs, ws := b.Row(), BIN_WIDTHS;
    forall i | 0 <= i < |vs|
      ensures vs[i] < Pow256(ws[i])
    {
      assert i == 0 || i == 1 || i == 2 || i == 3 || i == 4 || i == 5 || i == 6;
    }
  }

  function EncodeBin(b: Bin): Result<seq<byte>> {
    if |b.payload| > MESSAGE_PAYLOAD then TooLong(|b.payload|)
    else Ok(EncodeRow(b.Row(), BIN_WIDTHS) + b.payload)
  }

  function BinOfRow(r: seq<nat>, payload: seq<byte>): Bin
    requires Fits(r, BIN_WIDTHS)
  {
    Pow256Values();
    Bin(r[0], r[1], r[2], r[3], r[4], r[5], r[6], payload)
  }

  function DecodeBin(s: seq<byte>): Result<Bin> {
    BinWidthsTotal();
    if |s| < MESSAGE_HEADER then RangeError
    else
      EncodeDecodeRow(s, BIN_WIDTHS);
      Ok(BinOfRow(DecodeRow(s, BIN_WIDTHS), s[MESSAGE_HEADER..]))
  }

  /** The outer header survives the trip too; it is refused exactly when the payload is over the chunk size. */
  lemma DecodeEncodeBin(b: Bin)
    ensures EncodeBin(b).Ok? <==> |b.payload| <= MESSAGE_PAYLOAD
    ensures EncodeBin(b).Ok? ==> DecodeBin(EncodeBin(b).value) == Ok(b)
    ensures EncodeBin(b).Ok? ==> |EncodeBin(b).value| <= MESSAGE_SIZE
  {
    BinWidthsTotal();
    BinRowFits(b);
    BinOfRowOfRow(b);
    DecodeEncodeRow(b.Row(), BIN_WIDTHS, b.payload);
    hide BinOfRow, EncodeRow, DecodeRow, Total, Fits;
    if EncodeBin(b).Ok? {
      assert EncodeBin(b).value[MESSAGE_HEADER..] == b.payload;
    }
  }

  lemma BinOfRowOfRow(b: Bin)
    ensures Fits(b.Row(), BIN_WIDTHS) && BinOfRow(b.Row(), b.payload) == b
  {
    BinRowFits(b);
  }

  lemma {:induction false} BinOffsets(k: nat)
    requires k < 7
    ensures Total(BIN_WIDTHS[..k]) == [0, 1, 2, 4, 6, 8, 12][k] && BIN_WIDTHS[k] in [1, 2, 4]
  {
    if k > 0 {
      BinOffsets(k - 1);
      NextOffset(BIN_WIDTHS, k - 1);
    }
    hide Total;
  }

  lemma BinFieldIn(b: Bin, k: nat)
    requires k < 7 && EncodeBin(b).Ok?
    ensures var i, w := [0, 1, 2, 4, 6, 8, 12][k], BIN_WIDTHS[k];
            w in [1, 2, 4] && i + w <= |EncodeBin(b).value| && b.Row()[k] == FieldOf(EncodeBin(b).value, i, w)
  {
    BinWidthsTotal();
    BinRowFits(b);
    DecodeEncodeRow(b.Row(), BIN_WIDTHS, b.payload);
    BinOffsets(k);
    hide EncodeRow, DecodeRow, Total, Fits, FieldOf;
    FieldIs(EncodeBin(b).value, BIN_WIDTHS, k, BIN_WIDTHS[k], [0, 1, 2, 4, 6, 8, 12][k]);
  }

  /** The layout of the outer header. */
  lemma {:induction false} OuterLayoutIs(b: Bin)
    requires |b.payload| <= 3584
    ensures EncodeBin(b).Ok?
    ensures var s := EncodeBin(b).value;
            && |s| == 16 + |b.payload| && s[16..] == b.payload
            && s[0] == b.flag && s[1] == b.version && U16At(s, 2) == b.kind && U16At(s, 4) == b.port1
            && U16At(s, 6) == b.port2 && U32At(s, 8) == b.appId && U32At(s, 12) == b.extra
  {
    BinWidthsTotal();
    hide EncodeRow;
    assert EncodeBin(b).value[16..] == b.payload;
    BinFieldIn(b, 0); BinFieldIn(b, 1); BinFieldIn(b, 2); BinFieldIn(b, 3); BinFieldIn(b, 4); BinFieldIn(b, 5);
    BinFieldIn(b, 6);
    hide EncodeBin, Total, Fits, U16At, U32At;
  }
}
