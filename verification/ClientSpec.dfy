/** The client half of a connection (ClientConnection), for HTTP streams, as a value.
    Frames of one channel are handled one at a time: while a body write is in progress on a channel
    (busy), its next frame waits, as the per-channel task queue makes it wait. */
module ClientSpec {
  import opened Protocol
  import opened CreditSpec
  import opened TombstoneSpec
  import opened Frames
  import opened ServerSpec

  /** hasBody says that the stream has a request writer; responding that RESPONSE_START was sent.
      rest is the unsent part of the upstream chunk in hand. */
  datatype ClientStream = ClientStream(
    channel: nat,
    hasBody: bool,
    recvNext: nat,
    endSeq: Option<int>,
    sendNext: nat,
    responding: bool,
    responseBody: bool,
    rest: Option<bytes>)

  datatype Writing = Writing(stream: nat, payload: bytes)

  /** homes, written, closedWriters, read, stale and lost record what happened: the channel a stream
      started on, the bytes its request writer took, whether that writer was closed, and the bytes
      taken from its upstream response. No handler branches on them. */
  datatype Client = Client(
    streams: map<nat, ClientStream>,
    closed: seq<nat>,
    credit: Credit,
    busy: map<nat, Writing>,
    homes: map<nat, nat>,
    written: map<nat, bytes>,
    closedWriters: set<nat>,
    read: map<nat, bytes>,
    stale: map<nat, nat>,
    lost: map<nat, nat>)

  datatype ClientReply = ClientReply(client: Client, channel: nat, out: seq<Frame>, error: Option<ProtocolError>)

  datatype ClientEvent =
    | ReceiveDown(c: nat, frame: Frame)
    | WriteDone(c: nat)
    | WriteFail(c: nat)
    | Respond(i: nat, responseBody: bool)
    | UpstreamRead(i: nat, value: bytes)
    | UpstreamSend(i: nat)
    | UpstreamEnd(i: nat)
    | UpstreamFail(i: nat)

  function InitClient(channels: nat, l: Limits): Client {
    Client(map[], [], Reset(channels, l), map[], map[], map[], {}, map[], map[], map[])
  }

  function CleanupClient(cl: Client, i: nat): Client {
    if i !in cl.streams then cl
    else cl.(streams := cl.streams - {i}, credit := Delete(cl.credit, i), closed := Remember(cl.closed, i))
  }

  /** abortResponseStream: drop the stream and tell the server if it was still live. */
  function AbortResponse(cl: Client, i: nat, c: nat): ClientReply {
    ClientReply(CleanupClient(cl, i), c, if i in cl.streams then [ResponseAbort(i)] else [], None)
  }

  function StartRequest(cl: Client, l: Limits, c: nat, i: nat, hasBody: bool): ClientReply {
    if i in cl.streams then ClientReply(cl, c, [], Some(DuplicateStream))
    else
      ClientReply(
        cl.(streams := cl.streams[i := ClientStream(c, hasBody, 0, None, 0, false, false, None)],
            closed := Forget(cl.closed, i),
            credit := Seed(cl.credit, i, l),
            closedWriters := cl.closedWriters - {i},
            homes := cl.homes[i := c]),
        c, [], None)
  }

  /** consumeInbound and checkReceiveSeq both passed. */
  function AcceptRequestData(cl: Client, i: nat, c: nat, amount: nat): Client
    requires i in cl.streams
  {
    cl.(credit := ConsumeInbound(cl.credit, i, c, RequestBody, amount).credit,
        streams := cl.streams[i := cl.streams[i].(recvNext := cl.streams[i].recvNext + 1)])
  }

  function ReceiveRequestData(cl: Client, i: nat, c: nat, seqNo: nat, flags: nat, payload: bytes): ClientReply
    requires i in cl.streams
  {
    var st := cl.streams[i];
    if flags != FLAG_NONE then ClientReply(cl, c, [], Some(UnexpectedFlags))
    else
      var charged := ConsumeInbound(cl.credit, i, c, RequestBody, |payload|);
      if !charged.ok then ClientReply(cl, c, [], Some(CreditViolation))
      else if seqNo != st.recvNext then ClientReply(cl.(credit := charged.credit), c, [], Some(SeqDiscontinuity))
      else
        var cl' := AcceptRequestData(cl, i, c, |payload|);
        if st.hasBody then ClientReply(cl'.(busy := cl.busy[c := Writing(i, payload)]), c, [], None)
        else AbortResponse(cl'.(lost := Bump(cl.lost, c, |payload|)), i, c)
  }

  /** The declared end is recorded, and the request writer closed. */
  function EndRequest(cl: Client, i: nat, lastSeq: int): Client
    requires i in cl.streams
  {
    var st := cl.streams[i];
    cl.(streams := cl.streams[i := st.(endSeq := Some(lastSeq))],
        closedWriters := if st.hasBody then cl.closedWriters + {i} else cl.closedWriters)
  }

  /** Closing a writer that is closed already rejects, and the stream is aborted. */
  function ReceiveRequestEnd(cl: Client, i: nat, c: nat, kind: DataKind, lastSeq: int): ClientReply
    requires i in cl.streams
  {
    var st := cl.streams[i];
    if kind != RequestBody then ClientReply(cl, c, [], Some(EndKindMismatch))
    else if lastSeq != st.recvNext - 1 then ClientReply(cl, c, [], Some(LastSeqMismatch))
    else if st.hasBody && i in cl.closedWriters then AbortResponse(EndRequest(cl, i, lastSeq), i, c)
    else ClientReply(EndRequest(cl, i, lastSeq), c, [], None)
  }

  function DispatchRequestFrame(cl: Client, c: nat, f: Frame): ClientReply
    requires !f.ChannelCredit? && f.streamId in cl.streams
  {
    var i := f.streamId;
    match f
    case RequestData(_, seqNo, flags, payload) => ReceiveRequestData(cl, i, c, seqNo, flags, payload)
    case RequestEnd(_, kind, lastSeq) => ReceiveRequestEnd(cl, i, c, kind, lastSeq)
    case RequestAbort(_) => ClientReply(CleanupClient(cl, i), c, [], None)
    case _ => ClientReply(cl, c, [], Some(WrongDirection))
  }

  /** handleDataMessage, for a frame that decoded. */
  function ReceiveFrame(cl: Client, l: Limits, c: nat, f: Frame): ClientReply {
    if IsResponse(f) then ClientReply(cl, c, [], Some(WrongDirection))
    else if f.ChannelCredit? then
      ClientReply(cl.(credit := ApplyChannel(cl.credit, c, f.amount)), c, [], None)
    else if f.StreamCredit? then
      ClientReply(cl.(credit := ApplyStream(cl.credit, f.streamId, f.kind, f.amount)), c, [], None)
    else if f.streamId in cl.closed then
      ClientReply(cl.(stale := Bump(cl.stale, c, DataBytes(f))), c, [], None)
    else if f.RequestStart? then StartRequest(cl, l, c, f.streamId, f.hasBody)
    else if f.streamId !in cl.streams then ClientReply(cl, c, [], Some(UnknownStream))
    else if cl.streams[f.streamId].channel != c then ClientReply(cl, c, [], Some(WrongChannel))
    else DispatchRequestFrame(cl, c, f)
  }

  /** The write in progress on c succeeded: return its credit, whether or not its stream still lives.
      A zero-byte credit frame cannot be encoded, so an empty chunk aborts its stream instead. */
  function FinishWrite(cl: Client, c: nat): ClientReply
    requires c in cl.busy
  {
    var i, payload := cl.busy[c].stream, cl.busy[c].payload;
    var cl' := cl.(busy := cl.busy - {c},
                   written := cl.written[i := GetBytes(cl.written, i) + payload],
                   credit := GrantInbound(cl.credit, i, c, RequestBody, |payload|));
    if payload == [] then AbortResponse(cl', i, c)
    else ClientReply(cl', c, GrantFrames(i, RequestBody, |payload|), None)
  }

  function FailWrite(cl: Client, c: nat): ClientReply
    requires c in cl.busy
  {
    var i, payload := cl.busy[c].stream, cl.busy[c].payload;
    AbortResponse(cl.(busy := cl.busy - {c}, lost := Bump(cl.lost, c, |payload|)), i, c)
  }

  function SendChunk(cl: Client, l: Limits, i: nat): ClientReply
    requires i in cl.streams && cl.streams[i].rest.Some?
  {
    var st := cl.streams[i];
    var chunk := Chunk(st.rest.value, l.maxFrameBytes);
    ClientReply(
      cl.(credit := DecrementOutbound(cl.credit, i, st.channel, ResponseBody, |chunk|).credit,
          streams := cl.streams[i := st.(sendNext := st.sendNext + 1, rest := AfterChunk(st.rest.value, l.maxFrameBytes))]),
      st.channel, [ResponseData(i, st.sendNext, FLAG_NONE, chunk)], None)
  }

  predicate ClientEnabled(cl: Client, l: Limits, ev: ClientEvent) {
    match ev
    case ReceiveDown(c, _) => c !in cl.busy
    case WriteDone(c) => c in cl.busy
    case WriteFail(c) => c in cl.busy
    case Respond(i, _) => i in cl.streams && !cl.streams[i].responding
    case UpstreamRead(i, _) =>
      i in cl.streams && cl.streams[i].responding && cl.streams[i].responseBody && cl.streams[i].rest.None?
    case UpstreamSend(i) =>
      && i in cl.streams && cl.streams[i].responding && cl.streams[i].rest.Some?
      && HasOutbound(cl.credit, i, cl.streams[i].channel, ResponseBody, |Chunk(cl.streams[i].rest.value, l.maxFrameBytes)|)
      && cl.streams[i].sendNext <= MAX_UINT64
    case UpstreamEnd(i) =>
      && i in cl.streams && cl.streams[i].responding && cl.streams[i].rest.None?
      && cl.streams[i].sendNext - 1 <= MAX_SAFE_INTEGER
    case UpstreamFail(i) => i in cl.streams
  }

  function ClientStep(cl: Client, l: Limits, ev: ClientEvent): ClientReply
    requires ClientEnabled(cl, l, ev)
  {
    match ev
    case ReceiveDown(c, f) => ReceiveFrame(cl, l, c, f)
    case WriteDone(c) => FinishWrite(cl, c)
    case WriteFail(c) => FailWrite(cl, c)
    case Respond(i, responseBody) =>
      var st := cl.streams[i];
      ClientReply(cl.(streams := cl.streams[i := st.(responding := true, responseBody := responseBody)]),
                  st.channel, [ResponseStart(i, responseBody)], None)
    case UpstreamRead(i, value) =>
      var st := cl.streams[i];
      ClientReply(cl.(streams := cl.streams[i := st.(rest := Some(value))],
                      read := cl.read[i := GetBytes(cl.read, i) + value]),
                  st.channel, [], None)
    case UpstreamSend(i) => SendChunk(cl, l, i)
    case UpstreamEnd(i) =>
      var st := cl.streams[i];
      ClientReply(CleanupClient(cl, i), st.channel, [ResponseEnd(i, ResponseBody, st.sendNext - 1)], None)
    case UpstreamFail(i) => AbortResponse(cl, i, cl.streams[i].channel)
  }
}
