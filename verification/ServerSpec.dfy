/** The server half of a client connection (HostcTunnel), for HTTP streams, as a value.
    Every event is one run-to-completion step: a frame handler, one send of the request pump
    (credit check, send and decrement together), or something the public side does.
    Reply.out are the frames put on Reply.channel, in order. */
module ServerSpec {
  import opened Protocol
  import opened CreditSpec
  import opened TombstoneSpec
  import opened Frames

  /** recvNext and recvEnd stand for the response-body entries of receiveNextSeq and receiveEndSeq.
      room is None before the public body exists, afterwards the number of chunks it still takes. */
  datatype ServerStream = ServerStream(
    channel: nat,
    started: bool,
    recvNext: nat,
    recvEnd: Option<int>,
    room: Option<nat>,
    pending: seq<bytes>,
    pendingBytes: nat)

  datatype PumpStatus = Active | EndSent | Failed

  /** pumpPublicRequestBody of one stream; it outlives the stream's map entry. read is all that was
      taken from the public body, rest the part of the current chunk not sent yet. */
  datatype Pump = Pump(
    channel: nat,
    hasBody: bool,
    sendNext: nat,
    read: bytes,
    rest: Option<bytes>,
    status: PumpStatus)

  /** delivered, stale and lost record what happened; no handler branches on them. */
  datatype Server = Server(
    dataChannels: nat,
    nextStreamId: nat,
    nextChannelIndex: nat,
    streams: map<nat, ServerStream>,
    closed: seq<nat>,
    pendingDataBytes: nat,
    credit: Credit,
    pumps: map<nat, Pump>,
    delivered: map<nat, bytes>,
    stale: map<nat, nat>,
    lost: map<nat, nat>)

  datatype Reply = Reply(server: Server, channel: nat, out: seq<Frame>, error: Option<ProtocolError>)

  datatype ServerEvent =
    | Open(hasBody: bool)
    | PumpRead(i: nat, value: bytes)
    | PumpSend(i: nat)
    | PumpEnd(i: nat)
    | PumpFail(i: nat)
    | PublicCancel(i: nat)
    | Drop(i: nat)
    | AttachBody(i: nat)
    | PublicRead(i: nat)
    | ReceiveUp(c: nat, frame: Frame)

  function Init(channels: nat, l: Limits): Server {
    Server(channels, 1, 0, map[], [], 0, Reset(channels, l), map[], map[], map[], map[])
  }

  function Monus(a: nat, b: nat): nat {
    if a <= b then 0 else a - b
  }

  function Bump(m: map<nat, nat>, c: nat, n: nat): map<nat, nat> {
    m[c := Get(m, c) + n]
  }

  function GetBytes(m: map<nat, bytes>, i: nat): bytes {
    if i in m then m[i] else []
  }

  /** The chunk a send loop takes next. */
  function Chunk(rest: bytes, maxFrameBytes: nat): bytes {
    rest[..Min(maxFrameBytes, |rest|)]
  }

  function AfterChunk(rest: bytes, maxFrameBytes: nat): Option<bytes> {
    var left := rest[Min(maxFrameBytes, |rest|)..];
    if left == [] then None else Some(left)
  }

  function CleanupStream(s: Server, i: nat): Server {
    if i !in s.streams then s
    else
      var st := s.streams[i];
      s.(streams := s.streams - {i},
         pendingDataBytes := Monus(s.pendingDataBytes, st.pendingBytes),
         credit := Delete(s.credit, i),
         closed := Remember(s.closed, i),
         lost := Bump(s.lost, st.channel, st.pendingBytes))
  }

  /** abortAllStreams: the ids below n, oldest first. */
  function AbortBelow(s: Server, n: nat): Server {
    if n == 0 then s else CleanupStream(AbortBelow(s, n - 1), n - 1)
  }

  /** failClientConnection: no stream and no window is left. */
  function FailConnection(s: Server): Server {
    var s' := AbortBelow(s, s.nextStreamId);
    s'.(dataChannels := 0, credit := Credit(map[], map[], map[], map[]))
  }

  function OpenStream(s: Server, l: Limits, hasBody: bool): Reply
    requires s.dataChannels > 0
  {
    var c := s.nextChannelIndex % s.dataChannels;
    var i := s.nextStreamId;
    var st := ServerStream(c, false, 0, None, None, [], 0);
    Reply(
      s.(nextStreamId := i + 1,
         nextChannelIndex := s.nextChannelIndex + 1,
         streams := s.streams[i := st],
         closed := Forget(s.closed, i),
         credit := Seed(s.credit, i, l),
         pumps := s.pumps[i := Pump(c, hasBody, 0, [], None, Active)]),
      c, [RequestStart(i, hasBody)], None)
  }

  function PumpChunk(s: Server, l: Limits, i: nat): Reply
    requires i in s.pumps && s.pumps[i].rest.Some?
  {
    var p := s.pumps[i];
    var chunk := Chunk(p.rest.value, l.maxFrameBytes);
    var charged := DecrementOutbound(s.credit, i, p.channel, RequestBody, |chunk|);
    Reply(
      s.(credit := charged.credit,
         pumps := s.pumps[i := p.(sendNext := p.sendNext + 1, rest := AfterChunk(p.rest.value, l.maxFrameBytes))]),
      p.channel, [RequestData(i, p.sendNext, FLAG_NONE, chunk)], None)
  }

  /** The pump's catch block: it tells the client only while the stream is still live. */
  function FailPump(s: Server, i: nat): Reply
    requires i in s.pumps
  {
    var p := s.pumps[i];
    var s' := s.(pumps := s.pumps[i := p.(status := Failed)]);
    Reply(CleanupStream(s', i), p.channel, if i in s.streams then [RequestAbort(i)] else [], None)
  }

  function CancelPublic(s: Server, i: nat): Reply
    requires i in s.streams
  {
    Reply(CleanupStream(s, i), s.streams[i].channel, [RequestAbort(i)], None)
  }

  function FinishDirection(s: Server, i: nat): Server
    requires i in s.streams
  {
    var st := s.streams[i];
    match st.recvEnd
    case None => s
    case Some(end) => if end != -1 && st.recvNext <= end then s else CleanupStream(s, i)
  }

  predicate Deliverable(st: ServerStream) {
    st.room.Some? && st.room.value > 0
  }

  /** The public body takes one payload, and its credit is returned. */
  function Enqueued(s: Server, i: nat, payload: bytes): Server
    requires i in s.streams && Deliverable(s.streams[i])
  {
    var st := s.streams[i];
    s.(streams := s.streams[i := st.(room := Some(st.room.value - 1))],
       credit := GrantInbound(s.credit, i, st.channel, ResponseBody, |payload|),
       delivered := s.delivered[i := GetBytes(s.delivered, i) + payload])
  }

  /** deliverFrame: hand one payload to the public body and return its credit. */
  function DeliverFrame(s: Server, i: nat, payload: bytes): (r: Reply)
    requires i in s.streams && Deliverable(s.streams[i])
    ensures i in r.server.streams ==> r.server.streams[i].pending == s.streams[i].pending
  {
    Reply(FinishDirection(Enqueued(s, i, payload), i), s.streams[i].channel, GrantFrames(i, ResponseBody, |payload|), None)
  }

  /** RESPONSE_START has arrived. */
  function MarkStarted(s: Server, i: nat): Server
    requires i in s.streams
  {
    s.(streams := s.streams[i := s.streams[i].(started := true)])
  }

  /** The public body takes room more chunks. */
  function WithRoom(s: Server, i: nat, room: nat): Server
    requires i in s.streams
  {
    s.(streams := s.streams[i := s.streams[i].(room := Some(room))])
  }

  predicate CanFlush(s: Server, i: nat) {
    i in s.streams && s.streams[i].pending != [] && Deliverable(s.streams[i])
  }

  function QueueLength(s: Server, i: nat): nat {
    if i in s.streams then |s.streams[i].pending| else 0
  }

  /** One turn of the flush loop: deliver the head, then drop it from the queue. */
  function FlushHead(s: Server, i: nat): (r: Reply)
    requires CanFlush(s, i)
    ensures QueueLength(r.server, i) < QueueLength(s, i)
  {
    var payload := s.streams[i].pending[0];
    var r := DeliverFrame(s, i, payload);
    if i !in r.server.streams then r
    else
      var st := r.server.streams[i];
      r.(server := r.server.(
           streams := r.server.streams[i := st.(pending := st.pending[1..],
                                                pendingBytes := Monus(st.pendingBytes, |payload|))],
           pendingDataBytes := Monus(r.server.pendingDataBytes, |payload|)))
  }

  function FlushPending(s: Server, i: nat): Reply
    requires i in s.streams
    decreases QueueLength(s, i)
  {
    if !CanFlush(s, i) then Reply(s, s.streams[i].channel, [], None)
    else
      var r := FlushHead(s, i);
      if i !in r.server.streams then r
      else
        var r' := FlushPending(r.server, i);
        Reply(r'.server, r.channel, r.out + r'.out, None)
  }

  /** The pull handler: the public side took a chunk, so there is room for one more. */
  function PullBody(s: Server, i: nat, room: nat): Reply
    requires i in s.streams
  {
    FlushPending(WithRoom(s, i, room + 1), i)
  }

  lemma {:induction false} FlushNeverFails(s: Server, i: nat)
    requires i in s.streams
    ensures FlushPending(s, i).error == None
    decreases QueueLength(s, i)
  {
    if CanFlush(s, i) && i in FlushHead(s, i).server.streams {
      FlushNeverFails(FlushHead(s, i).server, i);
    }
  }

  predicate Overflows(s: Server, l: Limits, i: nat, n: nat)
    requires i in s.streams
  {
    s.streams[i].pendingBytes + n > l.pendingDataBytes || s.pendingDataBytes + n > l.pendingDataBytes
  }

  function EnqueuePending(s: Server, l: Limits, i: nat, payload: bytes): Server
    requires i in s.streams
  {
    var st := s.streams[i];
    var n := |payload|;
    if Overflows(s, l, i, n) then CleanupStream(s.(lost := Bump(s.lost, st.channel, n)), i)
    else
      s.(streams := s.streams[i := st.(pending := st.pending + [payload], pendingBytes := st.pendingBytes + n)],
         pendingDataBytes := s.pendingDataBytes + n)
  }

  /** consumeInbound and checkReceiveSeq both passed. */
  function AcceptData(s: Server, i: nat, c: nat, amount: nat): Server
    requires i in s.streams
  {
    s.(credit := ConsumeInbound(s.credit, i, c, ResponseBody, amount).credit,
       streams := s.streams[i := s.streams[i].(recvNext := s.streams[i].recvNext + 1)])
  }

  function ReceiveData(s: Server, l: Limits, i: nat, c: nat, seqNo: nat, flags: nat, payload: bytes): Reply
    requires i in s.streams
  {
    var st := s.streams[i];
    if flags != FLAG_NONE then Reply(s, c, [], Some(UnexpectedFlags))
    else if st.recvEnd.Some? && seqNo > st.recvEnd.value then Reply(s, c, [], Some(DataAfterEnd))
    else
      var charged := ConsumeInbound(s.credit, i, c, ResponseBody, |payload|);
      if !charged.ok then Reply(s, c, [], Some(CreditViolation))
      else if seqNo != st.recvNext then Reply(s.(credit := charged.credit), c, [], Some(SeqDiscontinuity))
      else
        var s' := AcceptData(s, i, c, |payload|);
        if Deliverable(st) then DeliverFrame(s', i, payload)
        else Reply(EnqueuePending(s', l, i, payload), c, [], None)
  }

  function ReceiveEnd(s: Server, i: nat, c: nat, kind: DataKind, lastSeq: int): Reply
    requires i in s.streams
  {
    var st := s.streams[i];
    if kind != ResponseBody then Reply(s, c, [], Some(EndKindMismatch))
    else if lastSeq != st.recvNext - 1 then Reply(s, c, [], Some(LastSeqMismatch))
    else Reply(FinishDirection(s.(streams := s.streams[i := st.(recvEnd := Some(lastSeq))]), i), c, [], None)
  }

  function DispatchStreamFrame(s: Server, l: Limits, c: nat, f: Frame): Reply
    requires !f.ChannelCredit? && f.streamId in s.streams
  {
    var i := f.streamId;
    match f
    case ResponseStart(_, _) => FlushPending(MarkStarted(s, i), i)
    case ResponseData(_, seqNo, flags, payload) => ReceiveData(s, l, i, c, seqNo, flags, payload)
    case ResponseEnd(_, kind, lastSeq) => ReceiveEnd(s, i, c, kind, lastSeq)
    case ResponseAbort(_) => Reply(CleanupStream(s, i), c, [], None)
    case _ => Reply(s, c, [], Some(WrongDirection))
  }

  /** handleDataChannelMessage, for a frame that decoded. */
  function Receive(s: Server, l: Limits, c: nat, f: Frame): Reply {
    match f
    case ChannelCredit(amount) =>
      Reply(s.(credit := ApplyChannel(s.credit, c, amount)), c, [], None)
    case StreamCredit(i, kind, amount) =>
      Reply(s.(credit := ApplyStream(s.credit, i, kind, amount)), c, [], None)
    case RequestStart(_, _) => Reply(s, c, [], Some(WrongDirection))
    case RequestData(_, _, _, _) => Reply(s, c, [], Some(WrongDirection))
    case RequestEnd(_, _, _) => Reply(s, c, [], Some(WrongDirection))
    case RequestAbort(_) => Reply(s, c, [], Some(WrongDirection))
    case _ =>
      var i := f.streamId;
      if i !in s.streams then
        if i in s.closed || i < s.nextStreamId then
          Reply(s.(stale := Bump(s.stale, c, DataBytes(f))), c, [], None)
        else Reply(s, c, [], Some(UnknownStream))
      else if s.streams[i].channel != c then Reply(s, c, [], Some(WrongChannel))
      else DispatchStreamFrame(s, l, c, f)
  }

  predicate Enabled(s: Server, l: Limits, ev: ServerEvent) {
    match ev
    case Open(_) =>
      // chooseNextDataChannel and the u64 stream id
      s.dataChannels > 0 && s.nextChannelIndex <= MAX_SAFE_INTEGER && s.nextStreamId <= MAX_UINT64
    case PumpRead(i, _) =>
      i in s.pumps && s.pumps[i].status == Active && s.pumps[i].hasBody && s.pumps[i].rest.None?
    case PumpSend(i) =>
      && i in s.pumps && s.pumps[i].status == Active && s.pumps[i].rest.Some? && i in s.streams
      && HasOutbound(s.credit, i, s.pumps[i].channel, RequestBody, |Chunk(s.pumps[i].rest.value, l.maxFrameBytes)|)
      && s.pumps[i].sendNext <= MAX_UINT64
    case PumpEnd(i) =>
      // REQUEST_END is sent whether or not the stream is still live
      && i in s.pumps && s.pumps[i].status == Active && s.pumps[i].rest.None?
      && s.pumps[i].sendNext - 1 <= MAX_SAFE_INTEGER
    case PumpFail(i) => i in s.pumps && s.pumps[i].status == Active
    case PublicCancel(i) => i in s.streams
    case Drop(i) => i in s.streams
    case AttachBody(i) => i in s.streams && s.streams[i].started && s.streams[i].room.None?
    case PublicRead(i) => i in s.streams && s.streams[i].room.Some?
    case ReceiveUp(_, _) => true
  }

  function Step(s: Server, l: Limits, ev: ServerEvent): Reply
    requires Enabled(s, l, ev)
  {
    match ev
    case Open(hasBody) => OpenStream(s, l, hasBody)
    case PumpRead(i, value) =>
      var p := s.pumps[i];
      Reply(s.(pumps := s.pumps[i := p.(read := p.read + value, rest := Some(value))]), p.channel, [], None)
    case PumpSend(i) => PumpChunk(s, l, i)
    case PumpEnd(i) =>
      var p := s.pumps[i];
      Reply(s.(pumps := s.pumps[i := p.(status := EndSent)]), p.channel,
            [RequestEnd(i, RequestBody, p.sendNext - 1)], None)
    case PumpFail(i) => FailPump(s, i)
    case PublicCancel(i) => CancelPublic(s, i)
    case Drop(i) => Reply(CleanupStream(s, i), s.streams[i].channel, [], None)
    case AttachBody(i) =>
      FlushPending(WithRoom(s, i, 1), i)
    case PublicRead(i) =>
      PullBody(s, i, s.streams[i].room.value)
    case ReceiveUp(c, f) => Receive(s, l, c, f)
  }
}
