/** The 25-byte frame header and the frame codec built on it. */
module FrameCodec {
  import opened Protocol

  const FRAME_MAGIC_0: byte := 0x48
  const FRAME_MAGIC_1: byte := 0x43
  const PROTOCOL_VERSION: byte := 4
  const FRAME_HEADER_BYTES: nat := 25

  datatype FrameType =
    | RequestStartType | RequestDataType | RequestEndType | RequestAbortType
    | ResponseStartType | ResponseDataType | ResponseEndType | ResponseAbortType
    | StreamCreditType | ChannelCreditType

  /** streamId, seqNo and flags are whatever number the caller supplies. */
  datatype FrameHeader = FrameHeader(frameType: FrameType, streamId: int, seqNo: int, flags: int, payloadLength: nat)

  datatype WireFrame = WireFrame(frameType: FrameType, streamId: int, seqNo: int, flags: int, payload: bytes)

  function CodeOf(t: FrameType): byte {
    match t
    case RequestStartType => 0x10
    case RequestDataType => 0x11
    case RequestEndType => 0x12
    case RequestAbortType => 0x13
    case ResponseStartType => 0x20
    case ResponseDataType => 0x21
    case ResponseEndType => 0x22
    case ResponseAbortType => 0x23
    case StreamCreditType => 0x30
    case ChannelCreditType => 0x31
  }

  function TypeOf(code: byte): Option<FrameType> {
    match code
    case 0x10 => Some(RequestStartType)
    case 0x11 => Some(RequestDataType)
    case 0x12 => Some(RequestEndType)
    case 0x13 => Some(RequestAbortType)
    case 0x20 => Some(ResponseStartType)
    case 0x21 => Some(ResponseDataType)
    case 0x22 => Some(ResponseEndType)
    case 0x23 => Some(ResponseAbortType)
    case 0x30 => Some(StreamCreditType)
    case 0x31 => Some(ChannelCreditType)
    case _ => None
  }

  /** The two tables are inverse to each other. */
  lemma CodesAreInverse(t: FrameType, code: byte)
    ensures TypeOf(CodeOf(t)) == Some(t)
    ensures TypeOf(code).Some? ==> CodeOf(TypeOf(code).value) == code
  {
  }

  predicate IsDataType(t: FrameType) {
    t == RequestDataType || t == ResponseDataType
  }

  /** assertValidFrameHeader: None, or the message it throws. */
  function HeaderFault(h: FrameHeader): Option<string> {
    if !(0 <= h.flags < 256) then Some("invalid frame flags")
    else if !(0 <= h.streamId <= MAX_UINT64) then Some("invalid stream id")
    else if !(0 <= h.seqNo <= MAX_UINT64) then Some("invalid sequence number")
    else if h.payloadLength > MAX_UINT32 then Some("invalid payload length")
    else if h.frameType == ChannelCreditType && h.streamId != 0 then Some("channel-level frame must use stream id 0")
    else if h.frameType == ChannelCreditType && h.seqNo != 0 then Some("channel-level frame must use sequence number 0")
    else if h.frameType != ChannelCreditType && h.streamId == 0 then Some("stream-level frame must use a non-zero stream id")
    else if !IsDataType(h.frameType) then
      if h.flags != FLAG_NONE then Some("metadata frame flags must be 0")
      else if h.seqNo != 0 then Some("metadata frame sequence number must be 0")
      else None
    else if h.flags != FLAG_NONE && h.flags != FLAG_WS_TEXT && h.flags != FLAG_WS_BINARY then
      Some("invalid data frame flags")
    else None
  }

  /** What the checks come to, read as a grammar. */
  predicate WellFormed(h: FrameHeader) {
    && h.payloadLength <= MAX_UINT32
    && (if h.frameType == ChannelCreditType then h.streamId == 0 else 1 <= h.streamId <= MAX_UINT64)
    && (if IsDataType(h.frameType) then 0 <= h.seqNo <= MAX_UINT64 && 0 <= h.flags <= 2
        else h.seqNo == 0 && h.flags == 0)
  }

  lemma HeaderFaultIsGrammar(h: FrameHeader)
    ensures HeaderFault(h) == None <==> WellFormed(h)
  {
  }

  function SizeFault(payloadLength: nat, maxFrameBytes: Option<int>): Option<string> {
    var most := if maxFrameBytes.Some? then maxFrameBytes.value else DEFAULT_MAX_FRAME_BYTES;
    if !PositiveSafe(most) then Some("maxFrameBytes must be a positive safe integer")
    else if payloadLength > most then Some("frame exceeds maxFrameBytes")
    else None
  }

  // ----- big-endian numbers -----

  function Pow256(k: nat): (p: nat)
    ensures p > 0
  {
    if k == 0 then 1 else 256 * Pow256(k - 1)
  }

  function BigEndian(n: nat, k: nat): (r: bytes)
    ensures |r| == k
  {
    if k == 0 then [] else BigEndian(n / 256, k - 1) + [n % 256]
  }

  function Number(bs: bytes): nat {
    if bs == [] then 0 else 256 * Number(bs[..|bs| - 1]) + bs[|bs| - 1]
  }

  lemma {:induction false} NumberOfBigEndian(n: nat, k: nat)
    requires n < Pow256(k)
    ensures Number(BigEndian(n, k)) == n
  {
    if k > 0 {
      NumberOfBigEndian(n / 256, k - 1);
      assert BigEndian(n, k)[..k - 1] == BigEndian(n / 256, k - 1);
    }
  }

  lemma {:induction false} BigEndianOfNumber(bs: bytes)
    ensures BigEndian(Number(bs), |bs|) == bs && Number(bs) < Pow256(|bs|)
  {
    if bs != [] {
      var n := |bs| - 1;
      BigEndianOfNumber(bs[..n]);
      assert Number(bs) / 256 == Number(bs[..n]) && Number(bs) % 256 == bs[n];
      assert bs[..n] + [bs[n]] == bs;
    }
  }

  lemma Widths()
    ensures Pow256(4) == MAX_UINT32 + 1 && Pow256(8) == MAX_UINT64 + 1
  {
    assert Pow256(2) == 0x1_0000;
    assert Pow256(4) == 0x1_0000_0000;
    assert Pow256(6) == 0x1_0000_0000_0000;
  }

  // ----- the codec -----

  function HeaderOf(f: WireFrame): FrameHeader {
    FrameHeader(f.frameType, f.streamId, f.seqNo, f.flags, |f.payload|)
  }

  function HeaderBytes(h: FrameHeader): (r: bytes)
    requires WellFormed(h)
    ensures |r| == FRAME_HEADER_BYTES
  {
    [FRAME_MAGIC_0, FRAME_MAGIC_1, PROTOCOL_VERSION, CodeOf(h.frameType), h.flags]
    + BigEndian(h.streamId, 8) + BigEndian(h.seqNo, 8) + BigEndian(h.payloadLength, 4)
  }

  /** encodeFrameHeader is called without options here, so the default maximum applies as well. */
  function EncodeFrame(f: WireFrame, maxFrameBytes: Option<int>): Result<bytes> {
    var h := HeaderOf(f);
    if HeaderFault(h).Some? then Err(HeaderFault(h).value)
    else if SizeFault(h.payloadLength, maxFrameBytes).Some? then Err(SizeFault(h.payloadLength, maxFrameBytes).value)
    else if SizeFault(h.payloadLength, None).Some? then Err(SizeFault(h.payloadLength, None).value)
    else
      HeaderFaultIsGrammar(h);
      Ok(HeaderBytes(h) + f.payload)
  }

  function DecodeFrameHeader(input: bytes, maxFrameBytes: Option<int>): Result<FrameHeader> {
    if |input| < FRAME_HEADER_BYTES then Err("frame is shorter than header")
    else if input[0] != FRAME_MAGIC_0 || input[1] != FRAME_MAGIC_1 then Err("invalid frame magic")
    else if input[2] != PROTOCOL_VERSION then Err("unsupported protocol version")
    else if TypeOf(input[3]).None? then Err("unknown frame type code")
    else
      var h := FrameHeader(TypeOf(input[3]).value, Number(input[5..13]), Number(input[13..21]), input[4], Number(input[21..25]));
      if HeaderFault(h).Some? then Err(HeaderFault(h).value)
      else if SizeFault(h.payloadLength, maxFrameBytes).Some? then Err(SizeFault(h.payloadLength, maxFrameBytes).value)
      else Ok(h)
  }

  function DecodeFrame(input: bytes, maxFrameBytes: Option<int>): Result<WireFrame> {
    match DecodeFrameHeader(input, maxFrameBytes)
    case Err(message) => Err(message)
    case Ok(h) =>
      if |input| != FRAME_HEADER_BYTES + h.payloadLength then Err("frame payload length mismatch")
      else Ok(WireFrame(h.frameType, h.streamId, h.seqNo, h.flags, input[FRAME_HEADER_BYTES..]))
  }

  /** Which frames can be encoded at all. */
  lemma EncodableExactly(f: WireFrame, maxFrameBytes: Option<int>)
    ensures EncodeFrame(f, maxFrameBytes).Ok? <==>
              && WellFormed(HeaderOf(f))
              && SizeFault(0, maxFrameBytes) == None
              && |f.payload| <= DEFAULT_MAX_FRAME_BYTES
              && (maxFrameBytes.Some? ==> |f.payload| <= maxFrameBytes.value)
  {
    HeaderFaultIsGrammar(HeaderOf(f));
  }

  lemma HeaderFields(h: FrameHeader, tail: bytes)
    requires WellFormed(h)
    ensures var b := HeaderBytes(h) + tail;
            && b[0] == FRAME_MAGIC_0 && b[1] == FRAME_MAGIC_1 && b[2] == PROTOCOL_VERSION
            && b[3] == CodeOf(h.frameType) && b[4] == h.flags
            && b[5..13] == BigEndian(h.streamId, 8) && b[13..21] == BigEndian(h.seqNo, 8)
            && b[21..25] == BigEndian(h.payloadLength, 4) && b[25..] == tail
  {
    var id, sq, n := BigEndian(h.streamId, 8), BigEndian(h.seqNo, 8), BigEndian(h.payloadLength, 4);
    var fixed: bytes := [FRAME_MAGIC_0, FRAME_MAGIC_1, PROTOCOL_VERSION, CodeOf(h.frameType), h.flags];
    var b := HeaderBytes(h) + tail;
    assert b == fixed + (id + (sq + (n + tail)));
  }

  lemma HeaderDecodes(h: FrameHeader, tail: bytes, maxFrameBytes: Option<int>)
    requires WellFormed(h) && SizeFault(h.payloadLength, maxFrameBytes) == None
    ensures DecodeFrameHeader(HeaderBytes(h) + tail, maxFrameBytes) == Ok(h)
  {
    HeaderFields(h, tail);
    CodesAreInverse(h.frameType, 0);
    Widths();
    NumberOfBigEndian(h.streamId, 8);
    NumberOfBigEndian(h.seqNo, 8);
    NumberOfBigEndian(h.payloadLength, 4);
    HeaderFaultIsGrammar(h);
  }

  /** Whatever can be encoded is decoded to the same frame. */
  lemma DecodeAfterEncode(f: WireFrame, maxFrameBytes: Option<int>)
    requires EncodeFrame(f, maxFrameBytes).Ok?
    ensures DecodeFrame(EncodeFrame(f, maxFrameBytes).value, maxFrameBytes) == Ok(f)
  {
    HeaderFaultIsGrammar(HeaderOf(f));
    HeaderDecodes(HeaderOf(f), f.payload, maxFrameBytes);
    HeaderFields(HeaderOf(f), f.payload);
  }

  lemma HeaderIsCanonical(input: bytes, maxFrameBytes: Option<int>, h: FrameHeader)
    requires DecodeFrameHeader(input, maxFrameBytes) == Ok(h)
    ensures WellFormed(h) && HeaderBytes(h) == input[..FRAME_HEADER_BYTES]
  {
    HeaderFaultIsGrammar(h);
    CodesAreInverse(h.frameType, input[3]);
    BigEndianOfNumber(input[5..13]);
    BigEndianOfNumber(input[13..21]);
    BigEndianOfNumber(input[21..25]);
    assert input[..FRAME_HEADER_BYTES] == input[..5] + input[5..13] + input[13..21] + input[21..25];
    assert input[..5] == [input[0], input[1], input[2], input[3], input[4]];
  }

  /** Every accepted byte string is the encoding of what it decodes to, and can be encoded again exactly
      when its payload is within the default maximum. */
  lemma EncodeAfterDecode(input: bytes, maxFrameBytes: Option<int>, f: WireFrame)
    requires DecodeFrame(input, maxFrameBytes) == Ok(f)
    ensures EncodeFrame(f, maxFrameBytes).Ok? <==> |f.payload| <= DEFAULT_MAX_FRAME_BYTES
    ensures EncodeFrame(f, maxFrameBytes).Ok? ==> EncodeFrame(f, maxFrameBytes).value == input
  {
    var h := DecodeFrameHeader(input, maxFrameBytes).value;
    HeaderIsCanonical(input, maxFrameBytes, h);
    HeaderFaultIsGrammar(h);
    assert HeaderOf(f) == h;
    assert input == input[..FRAME_HEADER_BYTES] + input[FRAME_HEADER_BYTES..];
  }

  /** With a maximum above the default, a peer may accept frames this codec cannot produce. */
  lemma LargeFrameOnlyDecodes(payload: bytes)
    requires DEFAULT_MAX_FRAME_BYTES < |payload| <= 2 * DEFAULT_MAX_FRAME_BYTES
    ensures var f := WireFrame(RequestDataType, 1, 0, FLAG_NONE, payload); var most := Some(2 * DEFAULT_MAX_FRAME_BYTES);
            EncodeFrame(f, most).Err? && exists input: bytes :: DecodeFrame(input, most) == Ok(f)
  {
    var f := WireFrame(RequestDataType, 1, 0, FLAG_NONE, payload);
    var most := Some(2 * DEFAULT_MAX_FRAME_BYTES);
    HeaderFaultIsGrammar(HeaderOf(f));
    HeaderDecodes(HeaderOf(f), payload, most);
    HeaderFields(HeaderOf(f), payload);
    assert DecodeFrame(HeaderBytes(HeaderOf(f)) + payload, most) == Ok(f);
  }

  // ----- the layout -----

  lemma DivBy(n: nat, d: nat, q: nat)
    requires d > 0 && q * d <= n < (q + 1) * d
    ensures n / d == q
  {
    if n / d < q {
      MulMonotone(n / d + 1, q, d);
    } else if n / d > q {
      MulMonotone(q + 1, n / d, d);
    }
  }

  lemma MulMonotone(a: nat, b: nat, d: nat)
    requires a <= b
    ensures a * d <= b * d
  {
  }

  lemma Commutes(p: nat, q: nat)
    ensures q * (256 * p) == 256 * (q * p) && (q + 1) * (256 * p) == 256 * (q * p) + 256 * p
  {
  }

  lemma DivTwice(n: nat, p: nat)
    requires p > 0
    ensures n / 256 / p == n / (256 * p)
  {
    var q := n / 256 / p;
    assert q * p <= n / 256 < q * p + p;
    Commutes(p, q);
    DivBy(n, 256 * p, q);
  }

  lemma {:induction false} BigEndianAt(n: nat, k: nat, j: nat)
    requires j < k
    ensures BigEndian(n, k)[j] == n / Pow256(k - 1 - j) % 256
  {
    if j < k - 1 {
      BigEndianAt(n / 256, k - 1, j);
      DivTwice(n, Pow256(k - 2 - j));
    }
  }

  /** Where every byte of a frame stands: magic, version, code and flags, then stream id, sequence number and payload
      length with the most significant byte first, then the payload. */
  lemma LayoutOfFrame(f: WireFrame, maxFrameBytes: Option<int>, k: nat)
    requires EncodeFrame(f, maxFrameBytes).Ok? && k < |EncodeFrame(f, maxFrameBytes).value|
    ensures |EncodeFrame(f, maxFrameBytes).value| == 25 + |f.payload| && f.streamId >= 0 && f.seqNo >= 0
    ensures EncodeFrame(f, maxFrameBytes).value[k] ==
            if k == 0 then 0x48 else if k == 1 then 0x43 else if k == 2 then 4
            else if k == 3 then CodeOf(f.frameType)
            else if k == 4 then f.flags
            else if k < 13 then f.streamId / Pow256(12 - k) % 256
            else if k < 21 then f.seqNo / Pow256(20 - k) % 256
            else if k < 25 then |f.payload| / Pow256(24 - k) % 256
            else f.payload[k - 25]
  {
    var h := HeaderOf(f);
    HeaderFaultIsGrammar(h);
    HeaderFields(h, f.payload);
    var b := EncodeFrame(f, maxFrameBytes).value;
    if 5 <= k < 13 {
      assert b[k] == b[5..13][k - 5];
      BigEndianAt(f.streamId, 8, k - 5);
    } else if 13 <= k < 21 {
      assert b[k] == b[13..21][k - 13];
      BigEndianAt(f.seqNo, 8, k - 13);
    } else if 21 <= k < 25 {
      assert b[k] == b[21..25][k - 21];
      BigEndianAt(|f.payload|, 4, k - 21);
    } else if 25 <= k {
      assert b[k] == b[25..][k - 25];
    }
  }

  // ----- writing into buffers -----

  /** DataView.setBigUint64 and setUint32, big-endian. */
  method SetBigEndian(view: array<byte>, offset: nat, width: nat, n: nat)
    requires offset + width <= view.Length
    modifies view
    ensures view[offset..offset + width] == BigEndian(n, width)
    ensures view[..offset] == old(view[..offset])
    ensures view[offset + width..] == old(view[offset + width..])
  {
    var rest, i := n, width;
    while i > 0
      invariant 0 <= i <= width
      invariant BigEndian(rest, i) + view[offset + i..offset + width] == BigEndian(n, width)
      invariant forall k :: 0 <= k < view.Length && (k < offset || k >= offset + width) ==> view[k] == old(view[k])
    {
      ghost var done := view[offset + i..offset + width];
      i := i - 1;
      view[offset + i] := rest % 256;
      assert view[offset + i..offset + width] == [rest % 256] + done;
      assert BigEndian(rest / 256, i) + ([rest % 256] + done) == BigEndian(rest, i + 1) + done;
      rest := rest / 256;
    }
    assert BigEndian(rest, 0) + view[offset..offset + width] == view[offset..offset + width];
  }

  method EncodeFrameHeaderInto(h: FrameHeader) returns (header: array<byte>)
    requires WellFormed(h)
    ensures fresh(header) && header[..] == HeaderBytes(h)
  {
    header := new byte[FRAME_HEADER_BYTES](_ => 0);
    header[0], header[1], header[2] := FRAME_MAGIC_0, FRAME_MAGIC_1, PROTOCOL_VERSION;
    header[3], header[4] := CodeOf(h.frameType), h.flags;
    ghost var fixed: bytes := [FRAME_MAGIC_0, FRAME_MAGIC_1, PROTOCOL_VERSION, CodeOf(h.frameType), h.flags];
    assert header[..5] == fixed;
    SetBigEndian(header, 5, 8, h.streamId);
    assert header[..13] == fixed + BigEndian(h.streamId, 8);
    SetBigEndian(header, 13, 8, h.seqNo);
    assert header[..21] == fixed + BigEndian(h.streamId, 8) + BigEndian(h.seqNo, 8);
    SetBigEndian(header, 21, 4, h.payloadLength);
    assert header[..] == header[..21] + header[21..25];
  }

  method EncodeFrameInto(f: WireFrame, maxFrameBytes: Option<int>) returns (frame: array<byte>, fault: Option<string>)
    ensures match EncodeFrame(f, maxFrameBytes)
            case Err(message) => fault == Some(message)
            case Ok(encoded) => fault == None && frame[..] == encoded
    ensures fresh(frame)
  {
    frame := new byte[0];
    var h := HeaderOf(f);
    fault := HeaderFault(h);
    if fault.Some? {
      return;
    }
    fault := SizeFault(|f.payload|, maxFrameBytes);
    if fault.Some? {
      return;
    }
    fault := SizeFault(|f.payload|, None);
    if fault.Some? {
      return;
    }
    HeaderFaultIsGrammar(h);
    var header := EncodeFrameHeaderInto(h);
    frame := new byte[FRAME_HEADER_BYTES + |f.payload|];
    forall i | 0 <= i < FRAME_HEADER_BYTES {
      frame[i] := header[i];
    }
    forall i | 0 <= i < |f.payload| {
      frame[FRAME_HEADER_BYTES + i] := f.payload[i];
    }
    assert frame[..] == header[..] + f.payload;
  }
}
