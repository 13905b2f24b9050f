/** The frames of the two state machines on the wire: the codec never refuses one for its header, and
    credit never reaches its cap. */
module Wire {
  import opened Protocol
  import opened CreditSpec
  import opened Frames
  import opened FrameCodec
  import opened ServerSpec
  import opened ServerSafety
  import opened ServerLogs
  import opened ClientSpec
  import opened ClientLogs
  import opened System
  import opened Runs

  /** text stands for the encoded metadata of a frame that carries metadata. */
  function OnWire(f: Frame, text: bytes): WireFrame {
    match f
    case RequestStart(i, _) => WireFrame(RequestStartType, i, 0, FLAG_NONE, text)
    case RequestData(i, seqNo, flags, payload) => WireFrame(RequestDataType, i, seqNo, flags, payload)
    case RequestEnd(i, _, _) => WireFrame(RequestEndType, i, 0, FLAG_NONE, text)
    case RequestAbort(i) => WireFrame(RequestAbortType, i, 0, FLAG_NONE, text)
    case ResponseStart(i, _) => WireFrame(ResponseStartType, i, 0, FLAG_NONE, text)
    case ResponseData(i, seqNo, flags, payload) => WireFrame(ResponseDataType, i, seqNo, flags, payload)
    case ResponseEnd(i, _, _) => WireFrame(ResponseEndType, i, 0, FLAG_NONE, text)
    case ResponseAbort(i) => WireFrame(ResponseAbortType, i, 0, FLAG_NONE, text)
    case StreamCredit(i, _, _) => WireFrame(StreamCreditType, i, 0, FLAG_NONE, text)
    case ChannelCredit(_) => WireFrame(ChannelCreditType, 0, 0, FLAG_NONE, text)
  }

  /** The numbers of a frame are within what its header and metadata can carry. */
  predicate InRange(f: Frame) {
    match f
    case RequestData(_, seqNo, flags, _) => seqNo <= MAX_UINT64 && flags == FLAG_NONE
    case ResponseData(_, seqNo, flags, _) => seqNo <= MAX_UINT64 && flags == FLAG_NONE
    case RequestEnd(_, _, lastSeq) => -1 <= lastSeq <= MAX_SAFE_INTEGER
    case ResponseEnd(_, _, lastSeq) => -1 <= lastSeq <= MAX_SAFE_INTEGER
    case StreamCredit(_, _, amount) => amount > 0
    case ChannelCredit(amount) => amount > 0
    case _ => true
  }

  ghost predicate AllInRange(fs: seq<Frame>) {
    forall f :: f in fs ==> InRange(f)
  }

  lemma GrantsInRange(i: nat, kind: DataKind, amount: nat)
    ensures AllInRange(GrantFrames(i, kind, amount))
  {
  }

  lemma HeadInRange(s: Server, i: nat, r: Reply)
    requires CanFlush(s, i) && r == FlushHead(s, i)
    ensures AllInRange(r.out) && r.server.nextStreamId == s.nextStreamId
  {
    GrantsInRange(i, ResponseBody, |s.streams[i].pending[0]|);
  }

  lemma {:induction false} FlushInRange(s: Server, i: nat)
    requires i in s.streams
    ensures AllInRange(FlushPending(s, i).out) && FlushPending(s, i).server.nextStreamId == s.nextStreamId
    decreases QueueLength(s, i)
  {
    if CanFlush(s, i) {
      var r := FlushHead(s, i);
      HeadInRange(s, i, r);
      if i in r.server.streams {
        FlushInRange(r.server, i);
      }
    }
  }

  lemma DataInRange(s: Server, l: Limits, i: nat, c: nat, seqNo: nat, flags: nat, payload: bytes)
    requires i in s.streams
    ensures var r := ReceiveData(s, l, i, c, seqNo, flags, payload);
            AllInRange(r.out) && r.server.nextStreamId == s.nextStreamId
  {
    var s' := AcceptData(s, i, c, |payload|);
    assert EnqueuePending(s', l, i, payload).nextStreamId == s.nextStreamId;
  }

  lemma DispatchInRange(s: Server, l: Limits, c: nat, f: Frame, r: Reply)
    requires !f.ChannelCredit? && f.streamId in s.streams && r == DispatchStreamFrame(s, l, c, f)
    ensures AllInRange(r.out) && r.server.nextStreamId == s.nextStreamId
  {
    var i := f.streamId;
    if f.ResponseStart? {
      FlushInRange(MarkStarted(s, i), i);
    } else if f.ResponseData? {
      DataInRange(s, l, i, c, f.seqNo, f.flags, f.payload);
    } else if f.ResponseEnd? {
      assert ReceiveEnd(s, i, c, f.kind, f.lastSeq).server.nextStreamId == s.nextStreamId;
    }
  }

  lemma ReceiveInRange(s: Server, l: Limits, c: nat, f: Frame, r: Reply)
    requires r == Receive(s, l, c, f)
    ensures AllInRange(r.out) && r.server.nextStreamId == s.nextStreamId
  {
    if (f.ResponseStart? || f.ResponseData? || f.ResponseEnd? || f.ResponseAbort?)
       && f.streamId in s.streams && s.streams[f.streamId].channel == c {
      DispatchInRange(s, l, c, f, DispatchStreamFrame(s, l, c, f));
    }
  }

  lemma ServerInRange(s: Server, l: Limits, ev: ServerEvent, r: Reply)
    requires Enabled(s, l, ev) && !ev.ReceiveUp? && r == Step(s, l, ev)
    ensures AllInRange(r.out)
    ensures r.server.nextStreamId == s.nextStreamId || (ev.Open? && r.server.nextStreamId == s.nextStreamId + 1)
  {
    if ev.AttachBody? {
      FlushInRange(WithRoom(s, ev.i, 1), ev.i);
    } else if ev.PublicRead? {
      PullInRange(s, ev.i, s.streams[ev.i].room.value);
    } else {
      OwnInRange(s, l, ev, r);
    }
  }

  lemma PullInRange(s: Server, i: nat, room: nat)
    requires i in s.streams
    ensures AllInRange(PullBody(s, i, room).out) && PullBody(s, i, room).server.nextStreamId == s.nextStreamId
  {
    FlushInRange(WithRoom(s, i, room + 1), i);
  }

  lemma OwnInRange(s: Server, l: Limits, ev: ServerEvent, r: Reply)
    requires Enabled(s, l, ev) && !ev.ReceiveUp? && !ev.AttachBody? && !ev.PublicRead? && r == Step(s, l, ev)
    ensures AllInRange(r.out)
    ensures r.server.nextStreamId == s.nextStreamId || (ev.Open? && r.server.nextStreamId == s.nextStreamId + 1)
  {
  }

  lemma ClientFrameInRange(cl: Client, l: Limits, c: nat, f: Frame)
    ensures AllInRange(ReceiveFrame(cl, l, c, f).out)
  {
  }

  lemma ClientInRange(cl: Client, l: Limits, ev: ClientEvent)
    requires ClientEnabled(cl, l, ev) && !ev.ReceiveDown?
    ensures AllInRange(ClientStep(cl, l, ev).out)
  {
  }

  ghost predicate WireSafe(t: Sys) {
    && (forall c :: 0 <= c < |t.down| ==> AllInRange(t.down[c].sent))
    && (forall c :: 0 <= c < |t.up| ==> AllInRange(t.up[c].sent))
    && t.server.nextStreamId <= MAX_SAFE_INTEGER + 2
  }

  lemma SendInRange(chs: seq<Channel>, c: nat, fs: seq<Frame>)
    requires AllInRange(fs) && forall d :: 0 <= d < |chs| ==> AllInRange(chs[d].sent)
    ensures forall d :: 0 <= d < |chs| ==> AllInRange(Send(chs, c, fs)[d].sent)
  {
  }

  lemma NextWireSafe(t: Sys, l: Limits, ev: SysEvent)
    requires WireSafe(t) && CanStep(t, l, ev) && IdsSafe(t.server)
    ensures WireSafe(Next(t, l, ev).sys)
  {
    match ev
    case ServerActs(sev) =>
      var r := Step(t.server, l, sev);
      ServerInRange(t.server, l, sev, r);
      SendInRange(t.down, r.channel, r.out);
    case ClientActs(cev) =>
      var r := ClientStep(t.client, l, cev);
      ClientInRange(t.client, l, cev);
      SendInRange(t.up, r.channel, r.out);
    case DeliverUp(c) =>
      var r := Receive(t.server, l, c, Head(t.up, c));
      ReceiveInRange(t.server, l, c, Head(t.up, c), r);
      SendInRange(t.down, r.channel, r.out);
    case DeliverDown(c) =>
      var r := ReceiveFrame(t.client, l, c, Head(t.down, c));
      ClientFrameInRange(t.client, l, c, Head(t.down, c));
      SendInRange(t.up, r.channel, r.out);
  }

  lemma {:induction false} ReachedWireSafe(channels: nat, l: Limits, evs: seq<SysEvent>, t: Sys)
    requires Reached(channels, l, evs, t)
    ensures WireSafe(t)
    decreases |evs|
  {
    if evs != [] {
      var n := |evs| - 1;
      var s := After(InitSys(channels, l), l, evs[..n]).value;
      ReachedWireSafe(channels, l, evs[..n], s);
      ReachedInv(channels, l, evs[..n], s);
      NextWireSafe(s, l, evs[n]);
    }
  }

  lemma RangeIsWellFormed(f: Frame, text: bytes)
    requires InRange(f) && |text| <= MAX_UINT32 && DataBytes(f) <= MAX_UINT32
    requires !f.ChannelCredit? ==> 1 <= f.streamId <= MAX_UINT64
    ensures HeaderFault(HeaderOf(OnWire(f, text))) == None
  {
    HeaderFaultIsGrammar(HeaderOf(OnWire(f, text)));
  }

  lemma InRangeCrosses(f: Frame, text: bytes, max: nat)
    requires InRange(f) && (!f.ChannelCredit? ==> 1 <= f.streamId <= MAX_UINT64) && PositiveSafe(max)
    requires |OnWire(f, text).payload| <= Min(max, DEFAULT_MAX_FRAME_BYTES) && |text| <= MAX_UINT32
    ensures EncodeFrame(OnWire(f, text), Some(max)).Ok?
    ensures DecodeFrame(EncodeFrame(OnWire(f, text), Some(max)).value, Some(max)) == Ok(OnWire(f, text))
  {
    RangeIsWellFormed(f, text);
    DecodeAfterEncode(OnWire(f, text), Some(max));
  }

  lemma SentIdsIssued(t: Sys, l: Limits, c: nat, k: nat)
    requires SysInv(t, l)
    ensures c < |t.down| && k < |t.down[c].sent| && !t.down[c].sent[k].ChannelCredit? ==>
              1 <= t.down[c].sent[k].streamId < t.server.nextStreamId
    ensures c < |t.up| && k < |t.up[c].sent| && !t.up[c].sent[k].ChannelCredit? ==>
              1 <= t.up[c].sent[k].streamId < t.server.nextStreamId
  {
    if c < |t.down| {
      assert HomeLog(Sent(t.down)[c], t.server.pumps, c);
    }
    if c < |t.up| && k < |t.up[c].sent| && !t.up[c].sent[k].ChannelCredit? {
      assert CHomeLog(Sent(t.up)[c], t.client.homes, c);
      HomesAgree(t, l, t.up[c].sent[k].streamId);
    }
  }

  /** Every frame either endpoint ever sends, in any run, is one the codec encodes and the peer's codec
      decodes to the same frame, as long as it is within the frame size limits. */
  lemma EveryFrameCrossesTheWire(channels: nat, l: Limits, evs: seq<SysEvent>, t: Sys, c: nat, k: nat, f: Frame, text: bytes)
    requires Reached(channels, l, evs, t)
    requires (c < |t.down| && k < |t.down[c].sent| && f == t.down[c].sent[k]) || (c < |t.up| && k < |t.up[c].sent| && f == t.up[c].sent[k])
    requires |OnWire(f, text).payload| <= Min(l.maxFrameBytes, DEFAULT_MAX_FRAME_BYTES) && |text| <= MAX_UINT32
    ensures var encoded := EncodeFrame(OnWire(f, text), Some(l.maxFrameBytes));
            encoded.Ok? && DecodeFrame(encoded.value, Some(l.maxFrameBytes)) == Ok(OnWire(f, text))
  {
    ReachedWireSafe(channels, l, evs, t);
    ReachedInv(channels, l, evs, t);
    SentIdsIssued(t, l, c, k);
    assert InRange(f);
    InRangeCrosses(f, text, l.maxFrameBytes);
  }

  /** The fourth byte of a frame tells its direction in the high half and its place in the stream in the low one;
      the rest of the header carries the numbers of the frame, and a data frame its payload as it is. */
  lemma FrameOnWire(f: Frame, text: bytes, maxFrameBytes: Option<int>)
    requires EncodeFrame(OnWire(f, text), maxFrameBytes).Ok?
    ensures var b := EncodeFrame(OnWire(f, text), maxFrameBytes).value;
            && b[3] / 16 == (if f.StreamCredit? || f.ChannelCredit? then 3 else if IsResponse(f) then 2 else 1)
            && b[3] % 16 == (if f.RequestStart? || f.ResponseStart? || f.StreamCredit? then 0
                             else if IsData(f) || f.ChannelCredit? then 1 else if IsEnd(f) then 2 else 3)
            && Number(b[5..13]) == (if f.ChannelCredit? then 0 else f.streamId)
            && Number(b[13..21]) == (if IsData(f) then f.seqNo else 0)
            && b[4] == (if IsData(f) then f.flags else 0)
            && b[25..] == (if IsData(f) then f.payload else text)
  {
    var h := HeaderOf(OnWire(f, text));
    HeaderFaultIsGrammar(h);
    HeaderFields(h, OnWire(f, text).payload);
    Widths();
    NumberOfBigEndian(h.streamId, 8);
    NumberOfBigEndian(h.seqNo, 8);
  }

  // ----- the credit cap -----

  lemma ServerLaneUncapped(a: Lane, l: Limits, d: seq<Frame>, u: seq<Frame>, f: Frame)
    requires LaneLog(a, l, d, u) && ChannelGrants(u + [f]) <= |Payload(d)| && f.ChannelCredit?
    ensures a.outCredit + f.amount <= l.channelCreditBytes
  {
    Snoc(u, f);
  }

  lemma ClientLaneUncapped(a: CLane, l: Limits, d: seq<Frame>, u: seq<Frame>, f: Frame)
    requires CLaneLog(a, l, d, u) && ChannelGrants(d + [f]) <= |Payload(u)| && f.ChannelCredit?
    ensures a.outCredit + f.amount <= l.channelCreditBytes
  {
    Snoc(d, f);
  }

  lemma ServerWindowUncapped(t: Sys, l: Limits, c: nat)
    requires SysInv(t, l) && HasHead(t.up, c) && Head(t.up, c).ChannelCredit?
    ensures Get(t.server.credit.outChannel, c) + Head(t.up, c).amount <= l.channelCreditBytes
  {
    UpIsHonest(t, l, c);
    assert LaneLog(LaneOf(t.server, c), l, Sent(t.down)[c], Received(t.up)[c]);
    ServerLaneUncapped(LaneOf(t.server, c), l, Sent(t.down)[c], Received(t.up)[c], Head(t.up, c));
  }

  lemma ClientWindowUncapped(t: Sys, l: Limits, c: nat)
    requires SysInv(t, l) && HasHead(t.down, c) && Head(t.down, c).ChannelCredit?
    ensures Get(t.client.credit.outChannel, c) + Head(t.down, c).amount <= l.channelCreditBytes
  {
    DownIsHonest(t, l, c);
    assert CLaneLog(CLaneOf(t.client, c), l, Received(t.down)[c], Sent(t.up)[c]);
    ClientLaneUncapped(CLaneOf(t.client, c), l, Received(t.down)[c], Sent(t.up)[c], Head(t.down, c));
  }

  /** A channel credit frame that arrives is added in full, and never lifts a window above its initial size. */
  lemma ChannelCreditIsNeverCapped(channels: nat, l: Limits, evs: seq<SysEvent>, t: Sys, c: nat)
    requires Reached(channels, l, evs, t)
    ensures HasHead(t.up, c) && Head(t.up, c).ChannelCredit? ==>
              var before, n := Get(t.server.credit.outChannel, c), Head(t.up, c).amount;
              before + n <= l.channelCreditBytes && AddCredit(before, n) == before + n
    ensures HasHead(t.down, c) && Head(t.down, c).ChannelCredit? ==>
              var before, n := Get(t.client.credit.outChannel, c), Head(t.down, c).amount;
              before + n <= l.channelCreditBytes && AddCredit(before, n) == before + n
  {
    ReachedInv(channels, l, evs, t);
    if HasHead(t.up, c) && Head(t.up, c).ChannelCredit? {
      ServerWindowUncapped(t, l, c);
    }
    if HasHead(t.down, c) && Head(t.down, c).ChannelCredit? {
      ClientWindowUncapped(t, l, c);
    }
  }
}
