/** A whole request and response: whatever bodies the two sides have, there is a run in which each arrives complete,
    as long as the first chunk of each fits both credit windows. */
module Exchange {
  import opened Protocol
  import opened CreditSpec
  import opened Frames
  import opened ServerSpec
  import opened ServerSafety
  import opened ClientSpec
  import opened System
  import opened Runs
  import opened Progress

  /** The one stream of a connection with one channel, seen from both ends, and what is under way. */
  datatype View = View(
    down: seq<Frame>,
    up: seq<Frame>,
    pump: Pump,
    st: ServerStream,
    cst: ClientStream,
    busy: map<nat, Writing>,
    written: bytes,
    writerClosed: bool,
    delivered: bytes,
    read: bytes)

  ghost predicate ServerSees(s: Server, v: View) {
    && s.dataChannels == 1 && s.nextStreamId == 2
    && s.streams == map[1 := v.st] && v.st.channel == 0 && v.st.recvEnd == None && v.st.pending == [] && v.st.pendingBytes == 0
    && s.pumps == map[1 := v.pump] && v.pump.channel == 0 && v.pump.hasBody
    && GetBytes(s.delivered, 1) == v.delivered && Get(s.stale, 0) == 0 && Get(s.lost, 0) == 0
  }

  ghost predicate ClientSees(cl: Client, v: View) {
    && cl.streams == map[1 := v.cst] && v.cst.channel == 0 && v.cst.hasBody && cl.closed == []
    && cl.busy == v.busy && GetBytes(cl.written, 1) == v.written && (1 in cl.closedWriters <==> v.writerClosed)
    && GetBytes(cl.read, 1) == v.read && Get(cl.stale, 0) == 0 && Get(cl.lost, 0) == 0
  }

  ghost predicate Sees(t: Sys, v: View) {
    && |t.down| == |t.up| == 1 && t.down[0].received <= |t.down[0].sent| && t.up[0].received <= |t.up[0].sent|
    && InFlight(t.down[0]) == v.down && InFlight(t.up[0]) == v.up
    && ServerSees(t.server, v) && ClientSees(t.client, v)
  }

  ghost predicate At(l: Limits, evs: seq<SysEvent>, t: Sys, v: View) {
    Reached(1, l, evs, t) && Sees(t, v)
  }

  lemma OneMore(l: Limits, evs: seq<SysEvent>, s: Sys, ev: SysEvent, t: Sys) returns (evs': seq<SysEvent>)
    requires Reached(1, l, evs, s) && CanStep(s, l, ev) && Next(s, l, ev) == Outcome(t, None)
    ensures evs' == evs + [ev] && Reached(1, l, evs', t)
  {
    evs' := evs + [ev];
    assert evs'[..|evs|] == evs;
  }

  lemma Flight(chs: seq<Channel>, fs: seq<Frame>)
    requires |chs| == 1 && chs[0].received <= |chs[0].sent|
    ensures InFlight(Send(chs, 0, fs)[0]) == InFlight(chs[0]) + fs
    ensures InFlight(chs[0]) != [] ==>
              HasHead(chs, 0) && Head(chs, 0) == InFlight(chs[0])[0] && InFlight(Advance(chs, 0)[0]) == InFlight(chs[0])[1..]
  {
  }

  // ----- one step -----

  /** The views agree on what only the client can change. */
  predicate SameClient(v: View, w: View) {
    w.cst == v.cst && w.busy == v.busy && w.written == v.written && w.writerClosed == v.writerClosed && w.read == v.read
  }

  predicate SameServer(v: View, w: View) {
    w.pump == v.pump && w.st == v.st && w.delivered == v.delivered
  }

  lemma ServerMoves(l: Limits, before: seq<SysEvent>, s: Sys, v: View, ev: ServerEvent, r: Reply, w: View)
    returns (evs: seq<SysEvent>, t: Sys)
    requires At(l, before, s, v) && !ev.ReceiveUp? && Enabled(s.server, l, ev) && r == Step(s.server, l, ev)
    requires r.error == None && r.channel == 0 && ServerSees(r.server, w) && SameClient(v, w)
    requires w.down == v.down + r.out && w.up == v.up
    ensures At(l, evs, t, w)
  {
    Flight(s.down, r.out);
    t := Sys(r.server, s.client, Send(s.down, 0, r.out), s.up);
    evs := OneMore(l, before, s, ServerActs(ev), t);
  }

  lemma ClientMoves(l: Limits, before: seq<SysEvent>, s: Sys, v: View, ev: ClientEvent, r: ClientReply, w: View)
    returns (evs: seq<SysEvent>, t: Sys)
    requires At(l, before, s, v) && !ev.ReceiveDown? && ClientEnabled(s.client, l, ev) && r == ClientStep(s.client, l, ev)
    requires r.error == None && r.channel == 0 && ClientSees(r.client, w) && SameServer(v, w)
    requires w.up == v.up + r.out && w.down == v.down
    ensures At(l, evs, t, w)
  {
    Flight(s.up, r.out);
    t := Sys(s.server, r.client, s.down, Send(s.up, 0, r.out));
    evs := OneMore(l, before, s, ClientActs(ev), t);
  }

  lemma UpMoves(l: Limits, before: seq<SysEvent>, s: Sys, v: View, r: Reply, w: View) returns (evs: seq<SysEvent>, t: Sys)
    requires At(l, before, s, v) && v.up != [] && r == Receive(s.server, l, 0, v.up[0])
    requires r.error == None && r.channel == 0 && ServerSees(r.server, w) && SameClient(v, w)
    requires w.down == v.down + r.out && w.up == v.up[1..]
    ensures At(l, evs, t, w)
  {
    Flight(s.down, r.out);
    Flight(s.up, []);
    t := Sys(r.server, s.client, Send(s.down, 0, r.out), Advance(s.up, 0));
    evs := OneMore(l, before, s, DeliverUp(0), t);
  }

  lemma DownMoves(l: Limits, before: seq<SysEvent>, s: Sys, v: View, r: ClientReply, w: View) returns (evs: seq<SysEvent>, t: Sys)
    requires At(l, before, s, v) && v.down != [] && v.busy == map[] && r == ReceiveFrame(s.client, l, 0, v.down[0])
    requires r.error == None && r.channel == 0 && ClientSees(r.client, w) && SameServer(v, w)
    requires w.up == v.up + r.out && w.down == v.down[1..]
    ensures At(l, evs, t, w)
  {
    Flight(s.up, r.out);
    Flight(s.down, []);
    t := Sys(s.server, r.client, Advance(s.down, 0), Send(s.up, 0, r.out));
    evs := OneMore(l, before, s, DeliverDown(0), t);
  }

  /** Between honest peers the next frame of the one stream is never refused. */
  lemma UpAccepted(l: Limits, before: seq<SysEvent>, s: Sys, v: View)
    requires At(l, before, s, v) && v.up != []
    ensures Receive(s.server, l, 0, v.up[0]).error == None
  {
    Flight(s.up, []);
    NoProtocolError(1, l, before, s, DeliverUp(0));
  }

  lemma DownAccepted(l: Limits, before: seq<SysEvent>, s: Sys, v: View)
    requires At(l, before, s, v) && v.down != [] && v.busy == map[] && (v.down[0].ChannelCredit? || v.down[0].streamId == 1)
    ensures ReceiveFrame(s.client, l, 0, v.down[0]).error == None
  {
    Flight(s.down, []);
    NoProtocolError(1, l, before, s, DeliverDown(0));
  }

  // ----- the request -----

  function Opened(): View {
    View([RequestStart(1, true)], [], Pump(0, true, 0, [], None, Active), ServerStream(0, false, 0, None, None, [], 0),
         ClientStream(0, true, 0, None, 0, false, false, None), map[], [], false, [], [])
  }

  lemma Begin(l: Limits) returns (evs: seq<SysEvent>, t: Sys)
    requires IsTunnelLimits(l)
    ensures At(l, evs, t, Opened().(down := []))
  {
    var s := InitSys(1, l);
    var m := Next(s, l, ServerActs(Open(true))).sys;
    evs := OneMore(l, [], s, ServerActs(Open(true)), m);
    assert Head(m.down, 0) == RequestStart(1, true);
    t := Next(m, l, DeliverDown(0)).sys;
    evs := OneMore(l, evs, m, DeliverDown(0), t);
  }

  lemma ReadRequest(l: Limits, before: seq<SysEvent>, s: Sys, v: View, value: bytes) returns (evs: seq<SysEvent>, t: Sys)
    requires At(l, before, s, v) && v.pump.status == Active && v.pump.rest == None
    ensures At(l, evs, t, v.(pump := v.pump.(read := v.pump.read + value, rest := Some(value))))
  {
    var w := v.(pump := v.pump.(read := v.pump.read + value, rest := Some(value)));
    evs, t := ServerMoves(l, before, s, v, PumpRead(1, value), Step(s.server, l, PumpRead(1, value)), w);
  }

  /** The first chunk of what is left fits both windows. */
  predicate Fits(l: Limits, rest: bytes) {
    Min(l.maxFrameBytes, |rest|) <= l.streamCreditBytes && Min(l.maxFrameBytes, |rest|) <= l.channelCreditBytes
  }

  /** Nothing is under way. */
  predicate Idle(v: View) {
    v.down == [] && v.up == [] && v.busy == map[]
  }

  function Sending(v: View, l: Limits): View
    requires v.pump.rest.Some?
  {
    var rest := v.pump.rest.value;
    v.(down := [RequestData(1, v.pump.sendNext, FLAG_NONE, Chunk(rest, l.maxFrameBytes))],
       pump := v.pump.(sendNext := v.pump.sendNext + 1, rest := AfterChunk(rest, l.maxFrameBytes)))
  }

  lemma IdleIsQuiet(t: Sys, v: View)
    requires Sees(t, v) && Idle(v)
    ensures Quiet(t, 0)
  {
    assert |InFlight(t.down[0])| == |InFlight(t.up[0])| == 0;
  }

  lemma CanSend(l: Limits, before: seq<SysEvent>, s: Sys, v: View)
    requires At(l, before, s, v) && Idle(v) && v.pump.status == Active && v.pump.rest.Some? && Fits(l, v.pump.rest.value)
    requires v.pump.sendNext <= MAX_UINT64
    ensures Enabled(s.server, l, PumpSend(1))
  {
    IdleIsQuiet(s, v);
    QuietChannelSends(1, l, before, s, 1);
  }

  lemma RequestSent(s: Server, l: Limits, v: View, r: Reply)
    requires ServerSees(s, v) && Enabled(s, l, PumpSend(1)) && v.pump.rest.Some? && r == Step(s, l, PumpSend(1))
    ensures ServerSees(r.server, Sending(v, l)) && r.out == Sending(v, l).down && r.channel == 0 && r.error == None
  {
  }

  lemma SendRequest(l: Limits, before: seq<SysEvent>, s: Sys, v: View) returns (evs: seq<SysEvent>, t: Sys)
    requires At(l, before, s, v) && Idle(v) && v.pump.status == Active && v.pump.rest.Some? && Fits(l, v.pump.rest.value)
    requires v.pump.sendNext <= MAX_UINT64
    ensures At(l, evs, t, Sending(v, l))
  {
    CanSend(l, before, s, v);
    var r := Step(s.server, l, PumpSend(1));
    RequestSent(s.server, l, v, r);
    evs, t := ServerMoves(l, before, s, v, PumpSend(1), r, Sending(v, l));
  }

  lemma DataTaken(cl: Client, l: Limits, v: View, n: nat, payload: bytes, r: ClientReply)
    requires ClientSees(cl, v) && v.busy == map[] && r == ReceiveFrame(cl, l, 0, RequestData(1, n, FLAG_NONE, payload))
    requires r.error == None
    ensures ClientSees(r.client, v.(busy := map[0 := Writing(1, payload)], cst := v.cst.(recvNext := v.cst.recvNext + 1)))
    ensures r.out == [] && r.channel == 0
  {
  }

  lemma TakeRequest(l: Limits, before: seq<SysEvent>, s: Sys, v: View, payload: bytes) returns (evs: seq<SysEvent>, t: Sys)
    requires At(l, before, s, v) && v.busy == map[] && v.up == [] && |v.down| == 1
    requires v.down[0].RequestData? && v.down[0].streamId == 1 && v.down[0].flags == FLAG_NONE && v.down[0].payload == payload
    ensures At(l, evs, t, v.(down := [], busy := map[0 := Writing(1, payload)], cst := v.cst.(recvNext := v.cst.recvNext + 1)))
  {
    DownAccepted(l, before, s, v);
    var r := ReceiveFrame(s.client, l, 0, v.down[0]);
    DataTaken(s.client, l, v, v.down[0].seqNo, payload, r);
    var w := v.(down := [], busy := map[0 := Writing(1, payload)], cst := v.cst.(recvNext := v.cst.recvNext + 1));
    evs, t := DownMoves(l, before, s, v, r, w);
  }

  lemma WriteEnds(cl: Client, l: Limits, v: View, payload: bytes, r: ClientReply)
    requires ClientSees(cl, v) && v.busy == map[0 := Writing(1, payload)] && payload != [] && r == ClientStep(cl, l, WriteDone(0))
    ensures ClientSees(r.client, v.(busy := map[], written := v.written + payload))
    ensures r.out == GrantFrames(1, RequestBody, |payload|) && r.channel == 0 && r.error == None
  {
  }

  lemma FinishRequest(l: Limits, before: seq<SysEvent>, s: Sys, v: View, payload: bytes) returns (evs: seq<SysEvent>, t: Sys)
    requires At(l, before, s, v) && v.busy == map[0 := Writing(1, payload)] && payload != [] && v.up == []
    ensures At(l, evs, t, v.(busy := map[], written := v.written + payload, up := GrantFrames(1, RequestBody, |payload|)))
  {
    var r := ClientStep(s.client, l, WriteDone(0));
    WriteEnds(s.client, l, v, payload, r);
    var w := v.(busy := map[], written := v.written + payload, up := GrantFrames(1, RequestBody, |payload|));
    evs, t := ClientMoves(l, before, s, v, WriteDone(0), r, w);
  }

  lemma CreditUp(l: Limits, before: seq<SysEvent>, s: Sys, v: View) returns (evs: seq<SysEvent>, t: Sys)
    requires At(l, before, s, v) && v.up != [] && (v.up[0].StreamCredit? || v.up[0].ChannelCredit?)
    ensures At(l, evs, t, v.(up := v.up[1..]))
  {
    evs, t := UpMoves(l, before, s, v, Receive(s.server, l, 0, v.up[0]), v.(up := v.up[1..]));
  }

  lemma CreditDown(l: Limits, before: seq<SysEvent>, s: Sys, v: View) returns (evs: seq<SysEvent>, t: Sys)
    requires At(l, before, s, v) && v.busy == map[] && v.down != [] && (v.down[0].StreamCredit? || v.down[0].ChannelCredit?)
    ensures At(l, evs, t, v.(down := v.down[1..]))
  {
    evs, t := DownMoves(l, before, s, v, ReceiveFrame(s.client, l, 0, v.down[0]), v.(down := v.down[1..]));
  }

  lemma BothCreditsUp(l: Limits, before: seq<SysEvent>, s: Sys, v: View, n: nat) returns (evs: seq<SysEvent>, t: Sys)
    requires At(l, before, s, v) && v.up == GrantFrames(1, RequestBody, n) && n > 0
    ensures At(l, evs, t, v.(up := []))
  {
    evs, t := CreditUp(l, before, s, v);
    assert v.up[1..][1..] == [];
    evs, t := CreditUp(l, evs, t, v.(up := v.up[1..]));
  }

  /** The view once the chunk next in line has been written and credited. */
  function RequestTurn(v: View, l: Limits): View
    requires v.pump.rest.Some?
  {
    var rest := v.pump.rest.value;
    v.(pump := v.pump.(sendNext := v.pump.sendNext + 1, rest := AfterChunk(rest, l.maxFrameBytes)),
       cst := v.cst.(recvNext := v.cst.recvNext + 1), written := v.written + Chunk(rest, l.maxFrameBytes))
  }

  lemma WriteChunk(l: Limits, before: seq<SysEvent>, s: Sys, v: View, chunk: bytes) returns (evs: seq<SysEvent>, t: Sys)
    requires At(l, before, s, v) && v.busy == map[] && v.up == [] && |v.down| == 1 && chunk != []
    requires v.down[0].RequestData? && v.down[0].streamId == 1 && v.down[0].flags == FLAG_NONE && v.down[0].payload == chunk
    ensures At(l, evs, t, v.(down := [], cst := v.cst.(recvNext := v.cst.recvNext + 1), written := v.written + chunk))
  {
    evs, t := TakeRequest(l, before, s, v, chunk);
    var w := v.(down := [], busy := map[0 := Writing(1, chunk)], cst := v.cst.(recvNext := v.cst.recvNext + 1));
    evs, t := FinishRequest(l, evs, t, w, chunk);
    w := w.(busy := map[], written := v.written + chunk, up := GrantFrames(1, RequestBody, |chunk|));
    evs, t := BothCreditsUp(l, evs, t, w, |chunk|);
  }

  lemma ChunkPieces(rest: bytes, max: nat)
    requires rest != [] && max > 0
    ensures Chunk(rest, max) != []
    ensures match AfterChunk(rest, max)
            case None => Chunk(rest, max) == rest
            case Some(left) => Chunk(rest, max) + left == rest && 0 < |left| < |rest|
  {
  }

  lemma SendingIs(v: View, l: Limits, w: View)
    requires v.pump.rest.Some? && Idle(v) && w == Sending(v, l)
    ensures w.busy == map[] && w.up == [] && |w.down| == 1
    ensures w.down[0] == RequestData(1, v.pump.sendNext, FLAG_NONE, Chunk(v.pump.rest.value, l.maxFrameBytes))
    ensures w.(down := [], cst := w.cst.(recvNext := w.cst.recvNext + 1),
               written := w.written + Chunk(v.pump.rest.value, l.maxFrameBytes)) == RequestTurn(v, l)
  {
  }

  /** One chunk goes out, is written, and its credit comes back. */
  lemma RequestRound(l: Limits, before: seq<SysEvent>, s: Sys, v: View, rest: bytes) returns (evs: seq<SysEvent>, t: Sys)
    requires At(l, before, s, v) && Idle(v) && v.pump.status == Active && v.pump.rest == Some(rest) && rest != [] && Fits(l, rest)
    requires v.pump.sendNext <= MAX_UINT64
    ensures At(l, evs, t, RequestTurn(v, l))
  {
    ChunkPieces(rest, l.maxFrameBytes);
    var w := Sending(v, l);
    SendingIs(v, l, w);
    var middle, u := SendRequest(l, before, s, v);
    evs, t := WriteChunk(l, middle, u, w, Chunk(rest, l.maxFrameBytes));
  }

  /** Only counters and the rest in hand differ. */
  ghost predicate SameButPump(v: View, w: View) {
    && w.pump == v.pump.(sendNext := w.pump.sendNext, rest := w.pump.rest)
    && w == v.(pump := w.pump, cst := v.cst.(recvNext := w.cst.recvNext), written := w.written)
  }

  lemma Append3(a: bytes, b: bytes, c: bytes, d: bytes)
    requires b + c == d
    ensures a + b + c == a + d
  {
  }

  lemma {:induction false} SendAllRequest(l: Limits, before: seq<SysEvent>, s: Sys, v: View, rest: bytes)
    returns (evs: seq<SysEvent>, t: Sys, w: View)
    requires At(l, before, s, v) && Idle(v) && v.pump.status == Active && v.pump.rest == Some(rest) && rest != [] && Fits(l, rest)
    requires v.pump.sendNext + |rest| <= MAX_SAFE_INTEGER
    ensures At(l, evs, t, w) && SameButPump(v, w) && w.pump.rest == None && w.written == v.written + rest
    ensures w.pump.sendNext <= MAX_SAFE_INTEGER
    decreases |rest|
  {
    ChunkPieces(rest, l.maxFrameBytes);
    evs, t := RequestRound(l, before, s, v, rest);
    w := RequestTurn(v, l);
    if w.pump.rest.Some? {
      var left := w.pump.rest.value;
      evs, t, w := SendAllRequest(l, evs, t, w, left);
      Append3(v.written, Chunk(rest, l.maxFrameBytes), left, rest);
    }
  }

  lemma EndTaken(cl: Client, l: Limits, v: View, lastSeq: int, r: ClientReply)
    requires ClientSees(cl, v) && !v.writerClosed && r == ReceiveFrame(cl, l, 0, RequestEnd(1, RequestBody, lastSeq)) && r.error == None
    ensures ClientSees(r.client, v.(cst := v.cst.(endSeq := Some(lastSeq)), writerClosed := true))
    ensures r.out == [] && r.channel == 0
  {
  }

  lemma PumpEnds(s: Server, l: Limits, v: View, r: Reply)
    requires ServerSees(s, v) && Enabled(s, l, PumpEnd(1)) && r == Step(s, l, PumpEnd(1))
    ensures ServerSees(r.server, v.(pump := v.pump.(status := PumpStatus.EndSent)))
    ensures r.out == [RequestEnd(1, RequestBody, v.pump.sendNext - 1)] && r.channel == 0 && r.error == None
  {
  }

  lemma EndRequestBody(l: Limits, before: seq<SysEvent>, s: Sys, v: View) returns (evs: seq<SysEvent>, t: Sys, w: View)
    requires At(l, before, s, v) && Idle(v) && v.pump.status == Active && v.pump.rest == None && !v.writerClosed
    requires v.pump.sendNext <= MAX_SAFE_INTEGER
    ensures At(l, evs, t, w)
    ensures w == v.(pump := v.pump.(status := EndSent), cst := v.cst.(endSeq := Some(v.pump.sendNext - 1)), writerClosed := true)
  {
    var end := RequestEnd(1, RequestBody, v.pump.sendNext - 1);
    var r := Step(s.server, l, PumpEnd(1));
    PumpEnds(s.server, l, v, r);
    w := v.(pump := v.pump.(status := EndSent), down := [end]);
    var middle, m := ServerMoves(l, before, s, v, PumpEnd(1), r, w);
    evs, t := TakeEnd(l, middle, m, w, v.pump.sendNext - 1);
    w := w.(down := [], cst := v.cst.(endSeq := Some(v.pump.sendNext - 1)), writerClosed := true);
  }

  lemma TakeEnd(l: Limits, before: seq<SysEvent>, s: Sys, v: View, lastSeq: int) returns (evs: seq<SysEvent>, t: Sys)
    requires At(l, before, s, v) && v.busy == map[] && v.up == [] && v.down == [RequestEnd(1, RequestBody, lastSeq)] && !v.writerClosed
    ensures At(l, evs, t, v.(down := [], cst := v.cst.(endSeq := Some(lastSeq)), writerClosed := true))
  {
    DownAccepted(l, before, s, v);
    var r := ReceiveFrame(s.client, l, 0, v.down[0]);
    EndTaken(s.client, l, v, lastSeq, r);
    evs, t := DownMoves(l, before, s, v, r, v.(down := [], cst := v.cst.(endSeq := Some(lastSeq)), writerClosed := true));
  }

  // ----- the response -----

  lemma Respond(l: Limits, before: seq<SysEvent>, s: Sys, v: View) returns (evs: seq<SysEvent>, t: Sys, w: View)
    requires At(l, before, s, v) && Idle(v) && !v.cst.responding && v.st.room == None
    ensures At(l, evs, t, w)
    ensures w == v.(cst := v.cst.(responding := true, responseBody := true), st := v.st.(started := true, room := Some(1)))
  {
    var ev: ClientEvent := ClientEvent.Respond(1, true);
    w := v.(cst := v.cst.(responding := true, responseBody := true), up := [ResponseStart(1, true)]);
    evs, t := ClientMoves(l, before, s, v, ev, ClientStep(s.client, l, ev), w);
    evs, t := TakeStart(l, evs, t, w);
    w := w.(up := [], st := v.st.(started := true));
    evs, t := MakeBody(l, evs, t, w);
    w := w.(st := w.st.(room := Some(1)));
  }

  lemma TakeStart(l: Limits, before: seq<SysEvent>, s: Sys, v: View) returns (evs: seq<SysEvent>, t: Sys)
    requires At(l, before, s, v) && v.down == [] && v.up == [ResponseStart(1, true)] && v.st.room == None
    ensures At(l, evs, t, v.(up := [], st := v.st.(started := true)))
  {
    assert !CanFlush(MarkStarted(s.server, 1), 1);
    evs, t := UpMoves(l, before, s, v, Receive(s.server, l, 0, v.up[0]), v.(up := [], st := v.st.(started := true)));
  }

  lemma RoomMade(s: Server, v: View)
    requires ServerSees(s, v)
    ensures FlushPending(WithRoom(s, 1, 1), 1) == Reply(WithRoom(s, 1, 1), 0, [], None)
    ensures ServerSees(WithRoom(s, 1, 1), v.(st := v.st.(room := Some(1))))
  {
    assert !CanFlush(WithRoom(s, 1, 1), 1);
  }

  lemma MakeBody(l: Limits, before: seq<SysEvent>, s: Sys, v: View) returns (evs: seq<SysEvent>, t: Sys)
    requires At(l, before, s, v) && v.st.started && v.st.room == None
    ensures At(l, evs, t, v.(st := v.st.(room := Some(1))))
  {
    RoomMade(s.server, v);
    evs, t := ServerMoves(l, before, s, v, AttachBody(1), Step(s.server, l, AttachBody(1)), v.(st := v.st.(room := Some(1))));
  }

  lemma ReadBody(l: Limits, before: seq<SysEvent>, s: Sys, v: View) returns (evs: seq<SysEvent>, t: Sys)
    requires At(l, before, s, v) && v.st.room == Some(0)
    ensures At(l, evs, t, v.(st := v.st.(room := Some(1))))
  {
    RoomMade(s.server, v);
    evs, t := ServerMoves(l, before, s, v, PublicRead(1), Step(s.server, l, PublicRead(1)), v.(st := v.st.(room := Some(1))));
  }

  lemma ReadUpstream(l: Limits, before: seq<SysEvent>, s: Sys, v: View, value: bytes) returns (evs: seq<SysEvent>, t: Sys)
    requires At(l, before, s, v) && v.cst.responding && v.cst.responseBody && v.cst.rest == None
    ensures At(l, evs, t, v.(cst := v.cst.(rest := Some(value)), read := v.read + value))
  {
    var w := v.(cst := v.cst.(rest := Some(value)), read := v.read + value);
    evs, t := ClientMoves(l, before, s, v, UpstreamRead(1, value), ClientStep(s.client, l, UpstreamRead(1, value)), w);
  }

  function Answering(v: View, l: Limits): View
    requires v.cst.rest.Some?
  {
    var rest := v.cst.rest.value;
    v.(up := [ResponseData(1, v.cst.sendNext, FLAG_NONE, Chunk(rest, l.maxFrameBytes))],
       cst := v.cst.(sendNext := v.cst.sendNext + 1, rest := AfterChunk(rest, l.maxFrameBytes)))
  }

  lemma NothingHeld(s: Server, v: View)
    requires ServerSees(s, v)
    ensures HeldSum(s.streams, Some(0), s.nextStreamId) == 0
  {
    assert Held(s.streams, Some(0), 0) == Held(s.streams, Some(0), 1) == 0;
    assert HeldSum(s.streams, Some(0), 1) == 0;
  }

  lemma CanAnswer(l: Limits, before: seq<SysEvent>, s: Sys, v: View)
    requires At(l, before, s, v) && Idle(v) && v.cst.responding && v.cst.rest.Some? && Fits(l, v.cst.rest.value)
    requires v.cst.sendNext <= MAX_UINT64
    ensures CanStep(s, l, ClientActs(UpstreamSend(1)))
  {
    IdleIsQuiet(s, v);
    NothingHeld(s.server, v);
    QuietChannelAnswers(1, l, before, s, 1);
  }

  lemma AnswerSent(cl: Client, l: Limits, v: View, r: ClientReply)
    requires ClientSees(cl, v) && ClientEnabled(cl, l, UpstreamSend(1)) && v.cst.rest.Some? && r == ClientStep(cl, l, UpstreamSend(1))
    ensures ClientSees(r.client, Answering(v, l)) && r.out == Answering(v, l).up && r.channel == 0 && r.error == None
  {
  }

  lemma SendAnswer(l: Limits, before: seq<SysEvent>, s: Sys, v: View) returns (evs: seq<SysEvent>, t: Sys)
    requires At(l, before, s, v) && Idle(v) && v.cst.responding && v.cst.rest.Some? && Fits(l, v.cst.rest.value)
    requires v.cst.sendNext <= MAX_UINT64
    ensures At(l, evs, t, Answering(v, l))
  {
    CanAnswer(l, before, s, v);
    var r := ClientStep(s.client, l, UpstreamSend(1));
    AnswerSent(s.client, l, v, r);
    evs, t := ClientMoves(l, before, s, v, UpstreamSend(1), r, Answering(v, l));
  }

  lemma AnswerAccepted(s: Server, l: Limits, v: View, n: nat, payload: bytes, r: Reply)
    requires ServerSees(s, v) && v.st.room == Some(1) && r == Receive(s, l, 0, ResponseData(1, n, FLAG_NONE, payload)) && r.error == None
    ensures r == DeliverFrame(AcceptData(s, 1, 0, |payload|), 1, payload)
    ensures ServerSees(AcceptData(s, 1, 0, |payload|), v.(st := v.st.(recvNext := v.st.recvNext + 1)))
  {
  }

  lemma AnswerDelivered(s: Server, v: View, payload: bytes, r: Reply)
    requires ServerSees(s, v) && v.st.room == Some(1) && r == DeliverFrame(s, 1, payload)
    ensures ServerSees(r.server, v.(st := v.st.(room := Some(0)), delivered := v.delivered + payload))
    ensures r.out == GrantFrames(1, ResponseBody, |payload|) && r.channel == 0
  {
  }

  lemma AnswerTaken(s: Server, l: Limits, v: View, n: nat, payload: bytes, r: Reply)
    requires ServerSees(s, v) && v.st.room == Some(1) && r == Receive(s, l, 0, ResponseData(1, n, FLAG_NONE, payload)) && r.error == None
    ensures ServerSees(r.server, v.(st := v.st.(recvNext := v.st.recvNext + 1, room := Some(0)), delivered := v.delivered + payload))
    ensures r.out == GrantFrames(1, ResponseBody, |payload|) && r.channel == 0
  {
    AnswerAccepted(s, l, v, n, payload, r);
    AnswerDelivered(AcceptData(s, 1, 0, |payload|), v.(st := v.st.(recvNext := v.st.recvNext + 1)), payload, r);
  }

  lemma TakeAnswer(l: Limits, before: seq<SysEvent>, s: Sys, v: View, payload: bytes) returns (evs: seq<SysEvent>, t: Sys)
    requires At(l, before, s, v) && v.st.room == Some(1) && v.down == [] && |v.up| == 1
    requires v.up[0].ResponseData? && v.up[0].streamId == 1 && v.up[0].flags == FLAG_NONE && v.up[0].payload == payload
    ensures At(l, evs, t, v.(up := [], st := v.st.(recvNext := v.st.recvNext + 1, room := Some(0)), delivered := v.delivered + payload,
                             down := GrantFrames(1, ResponseBody, |payload|)))
  {
    UpAccepted(l, before, s, v);
    var r := Receive(s.server, l, 0, v.up[0]);
    AnswerTaken(s.server, l, v, v.up[0].seqNo, payload, r);
    var w := v.(up := [], st := v.st.(recvNext := v.st.recvNext + 1, room := Some(0)), delivered := v.delivered + payload,
                down := GrantFrames(1, ResponseBody, |payload|));
    evs, t := UpMoves(l, before, s, v, r, w);
  }

  lemma BothCreditsDown(l: Limits, before: seq<SysEvent>, s: Sys, v: View, n: nat) returns (evs: seq<SysEvent>, t: Sys)
    requires At(l, before, s, v) && v.busy == map[] && v.down == GrantFrames(1, ResponseBody, n) && n > 0
    ensures At(l, evs, t, v.(down := []))
  {
    evs, t := CreditDown(l, before, s, v);
    assert v.down[1..][1..] == [];
    evs, t := CreditDown(l, evs, t, v.(down := v.down[1..]));
  }

  lemma ReadChunk(l: Limits, before: seq<SysEvent>, s: Sys, v: View, chunk: bytes) returns (evs: seq<SysEvent>, t: Sys)
    requires At(l, before, s, v) && v.busy == map[] && v.st.room == Some(1) && v.down == [] && |v.up| == 1 && chunk != []
    requires v.up[0].ResponseData? && v.up[0].streamId == 1 && v.up[0].flags == FLAG_NONE && v.up[0].payload == chunk
    ensures At(l, evs, t, v.(up := [], st := v.st.(recvNext := v.st.recvNext + 1), delivered := v.delivered + chunk))
  {
    evs, t := TakeAnswer(l, before, s, v, chunk);
    var w := v.(up := [], st := v.st.(recvNext := v.st.recvNext + 1, room := Some(0)), delivered := v.delivered + chunk,
                down := GrantFrames(1, ResponseBody, |chunk|));
    evs, t := ReadBody(l, evs, t, w);
    w := w.(st := w.st.(room := Some(1)));
    evs, t := BothCreditsDown(l, evs, t, w, |chunk|);
  }

  /** The view once the chunk next in line has been delivered and credited. */
  function ResponseTurn(v: View, l: Limits): View
    requires v.cst.rest.Some?
  {
    var rest := v.cst.rest.value;
    v.(cst := v.cst.(sendNext := v.cst.sendNext + 1, rest := AfterChunk(rest, l.maxFrameBytes)),
       st := v.st.(recvNext := v.st.recvNext + 1), delivered := v.delivered + Chunk(rest, l.maxFrameBytes))
  }

  lemma AnsweringIs(v: View, l: Limits, w: View)
    requires v.cst.rest.Some? && Idle(v) && w == Answering(v, l)
    ensures w.busy == map[] && w.down == [] && |w.up| == 1 && w.st == v.st
    ensures w.up[0] == ResponseData(1, v.cst.sendNext, FLAG_NONE, Chunk(v.cst.rest.value, l.maxFrameBytes))
    ensures w.(up := [], st := w.st.(recvNext := w.st.recvNext + 1),
               delivered := w.delivered + Chunk(v.cst.rest.value, l.maxFrameBytes)) == ResponseTurn(v, l)
  {
  }

  lemma ResponseRound(l: Limits, before: seq<SysEvent>, s: Sys, v: View, rest: bytes) returns (evs: seq<SysEvent>, t: Sys)
    requires At(l, before, s, v) && Idle(v) && v.cst.responding && v.st.room == Some(1) && v.cst.rest == Some(rest) && rest != []
    requires Fits(l, rest) && v.cst.sendNext <= MAX_UINT64
    ensures At(l, evs, t, ResponseTurn(v, l))
  {
    ChunkPieces(rest, l.maxFrameBytes);
    var w := Answering(v, l);
    AnsweringIs(v, l, w);
    var middle, u := SendAnswer(l, before, s, v);
    evs, t := ReadChunk(l, middle, u, w, Chunk(rest, l.maxFrameBytes));
  }

  ghost predicate SameButAnswer(v: View, w: View) {
    && w.cst == v.cst.(sendNext := w.cst.sendNext, rest := w.cst.rest)
    && w == v.(cst := w.cst, st := v.st.(recvNext := w.st.recvNext), delivered := w.delivered)
  }

  lemma {:induction false} SendAllResponse(l: Limits, before: seq<SysEvent>, s: Sys, v: View, rest: bytes)
    returns (evs: seq<SysEvent>, t: Sys, w: View)
    requires At(l, before, s, v) && Idle(v) && v.cst.responding && v.st.room == Some(1) && v.cst.rest == Some(rest) && rest != []
    requires Fits(l, rest) && v.cst.sendNext + |rest| <= MAX_SAFE_INTEGER
    ensures At(l, evs, t, w) && SameButAnswer(v, w) && w.cst.rest == None && w.delivered == v.delivered + rest
    ensures w.cst.sendNext <= MAX_SAFE_INTEGER
    decreases |rest|
  {
    ChunkPieces(rest, l.maxFrameBytes);
    evs, t := ResponseRound(l, before, s, v, rest);
    w := ResponseTurn(v, l);
    if w.cst.rest.Some? {
      var left := w.cst.rest.value;
      evs, t, w := SendAllResponse(l, evs, t, w, left);
      Append3(v.delivered, Chunk(rest, l.maxFrameBytes), left, rest);
    }
  }

  // ----- the end -----

  /** Both sides have finished with the stream and got it whole. */
  ghost predicate Done(t: Sys, request: bytes, response: bytes) {
    && t.server.streams == map[] && t.client.streams == map[] && |t.down| == |t.up| == 1
    && InFlight(t.down[0]) == InFlight(t.up[0]) == []
    && 1 in t.client.closedWriters && GetBytes(t.client.written, 1) == request
    && GetBytes(t.server.delivered, 1) == response
  }

  /** The client is done and RESPONSE_END is under way. */
  ghost predicate Ending(t: Sys, v: View, end: Frame) {
    && |t.down| == |t.up| == 1 && t.down[0].received <= |t.down[0].sent| && t.up[0].received <= |t.up[0].sent|
    && InFlight(t.down[0]) == [] && InFlight(t.up[0]) == [end]
    && ServerSees(t.server, v) && t.client.streams == map[] && GetBytes(t.client.written, 1) == v.written && 1 in t.client.closedWriters
  }

  lemma ResponseFinished(cl: Client, l: Limits, v: View, r: ClientReply)
    requires ClientSees(cl, v) && v.cst.responding && v.cst.rest == None && v.cst.sendNext <= MAX_SAFE_INTEGER
    requires v.writerClosed && ClientEnabled(cl, l, UpstreamEnd(1)) && r == ClientStep(cl, l, UpstreamEnd(1))
    ensures r.client.streams == map[] && GetBytes(r.client.written, 1) == v.written && 1 in r.client.closedWriters
    ensures r.out == [ResponseEnd(1, ResponseBody, v.cst.sendNext - 1)] && r.channel == 0 && r.error == None
  {
  }

  lemma FinishResponse(l: Limits, before: seq<SysEvent>, s: Sys, v: View, end: Frame) returns (evs: seq<SysEvent>, t: Sys)
    requires At(l, before, s, v) && Idle(v) && v.cst.responding && v.cst.rest == None && v.cst.sendNext <= MAX_SAFE_INTEGER
    requires v.writerClosed && end == ResponseEnd(1, ResponseBody, v.cst.sendNext - 1)
    ensures Reached(1, l, evs, t) && Ending(t, v, end)
  {
    Flight(s.up, [end]);
    var r := ClientStep(s.client, l, UpstreamEnd(1));
    ResponseFinished(s.client, l, v, r);
    t := Sys(s.server, r.client, s.down, Send(s.up, 0, [end]));
    evs := OneMore(l, before, s, ClientActs(UpstreamEnd(1)), t);
  }

  lemma LastTaken(s: Server, l: Limits, v: View, lastSeq: int, r: Reply)
    requires ServerSees(s, v) && r == Receive(s, l, 0, ResponseEnd(1, ResponseBody, lastSeq)) && r.error == None
    ensures r.server.streams == map[] && GetBytes(r.server.delivered, 1) == v.delivered && r.out == []
  {
  }

  lemma EndResponse(l: Limits, before: seq<SysEvent>, s: Sys, v: View) returns (evs: seq<SysEvent>, t: Sys)
    requires At(l, before, s, v) && Idle(v) && v.cst.responding && v.cst.rest == None && v.cst.sendNext <= MAX_SAFE_INTEGER
    requires v.writerClosed
    ensures Reached(1, l, evs, t) && Done(t, v.written, v.delivered)
  {
    var end := ResponseEnd(1, ResponseBody, v.cst.sendNext - 1);
    var middle, m := FinishResponse(l, before, s, v, end);
    evs, t := TakeLast(l, middle, m, v, v.cst.sendNext - 1);
  }

  lemma TakeLast(l: Limits, before: seq<SysEvent>, s: Sys, v: View, lastSeq: int) returns (evs: seq<SysEvent>, t: Sys)
    requires Reached(1, l, before, s) && Ending(s, v, ResponseEnd(1, ResponseBody, lastSeq))
    ensures Reached(1, l, evs, t) && Done(t, v.written, v.delivered)
  {
    Flight(s.up, []);
    Flight(s.down, []);
    NoProtocolError(1, l, before, s, DeliverUp(0));
    LastTaken(s.server, l, v, lastSeq, Receive(s.server, l, 0, Head(s.up, 0)));
    t := Next(s, l, DeliverUp(0)).sys;
    evs := OneMore(l, before, s, DeliverUp(0), t);
  }

  lemma DoRequest(l: Limits, request: bytes) returns (evs: seq<SysEvent>, t: Sys, w: View)
    requires IsTunnelLimits(l) && Fits(l, request) && |request| <= MAX_SAFE_INTEGER
    ensures At(l, evs, t, w) && Idle(w) && w.writerClosed && w.written == request
    ensures !w.cst.responding && w.st.room == None && w.cst.rest == None && w.cst.sendNext == 0 && w.delivered == []
  {
    var v := Opened().(down := []);
    evs, t := Begin(l);
    if request == [] {
      w := v;
    } else {
      evs, t := ReadRequest(l, evs, t, v, request);
      v := v.(pump := v.pump.(read := [] + request, rest := Some(request)));
      evs, t, w := SendAllRequest(l, evs, t, v, request);
    }
    evs, t, w := EndRequestBody(l, evs, t, w);
  }

  /** For any two bodies there is a run of honest peers, from a fresh connection, in which the request writer takes
      exactly the one and is closed, the public body gets exactly the other, and neither end keeps anything: provided
      that the first chunk of each fits both windows. */
  lemma ExchangeCompletes(l: Limits, request: bytes, response: bytes) returns (evs: seq<SysEvent>, t: Sys)
    requires IsTunnelLimits(l) && |request| <= MAX_SAFE_INTEGER && |response| <= MAX_SAFE_INTEGER
    requires Fits(l, request) && Fits(l, response)
    ensures Reached(1, l, evs, t) && Done(t, request, response)
  {
    var v;
    evs, t, v := DoRequest(l, request);
    evs, t, v := Respond(l, evs, t, v);
    if response != [] {
      evs, t := ReadUpstream(l, evs, t, v, response);
      v := v.(cst := v.cst.(rest := Some(response)), read := v.read + response);
      evs, t, v := SendAllResponse(l, evs, t, v, response);
    }
    evs, t := EndResponse(l, evs, t, v);
  }
}
