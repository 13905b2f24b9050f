/** Runs of honest peers in which the code does less than one would like, and single steps that say when: the
    client takes a late frame for an unknown stream, the server drops the end of a response, the client gives up
    a stream over an empty chunk, and it takes data after REQUEST_END. */
module Counterexamples {
  import opened Protocol
  import opened CreditSpec
  import opened TombstoneSpec
  import opened TombstoneLemmas
  import opened ServerSpec
  import opened ServerTheorems
  import opened ClientSpec
  import opened System
  import opened Runs

  /** evs is a possible run of one fresh channel, and leads to t. */
  ghost predicate Leads(l: Limits, evs: seq<SysEvent>, t: Sys) {
    After(InitSys(1, l), l, evs) == Some(t)
  }

  lemma Extend(l: Limits, evs: seq<SysEvent>, s: Sys, ev: SysEvent, t: Sys) returns (evs': seq<SysEvent>)
    requires Leads(l, evs, s) && CanStep(s, l, ev) && Next(s, l, ev) == Outcome(t, None)
    ensures evs' == evs + [ev] && Leads(l, evs', t)
  {
    evs' := evs + [ev];
    assert evs'[..|evs|] == evs;
  }

  // ----- the client forgets -----

  ghost predicate Opened(t: Sys, l: Limits, n: nat) {
    && t.client == InitClient(1, l) && |t.down| == |t.up| == 1 && t.down[0].received == 0 && |t.down[0].sent| == n
    && (forall j :: 0 <= j < n ==> t.down[0].sent[j] == RequestStart(j + 1, false))
    && t.server.dataChannels == 1 && t.server.nextStreamId == n + 1 && t.server.nextChannelIndex == n
    && (n > 0 ==> 1 in t.server.streams && t.server.streams[1].channel == 0)
  }

  lemma OpenOne(l: Limits, s: Sys, n: nat)
    requires Opened(s, l, n) && n <= MAX_SAFE_INTEGER
    ensures CanStep(s, l, ServerActs(Open(false)))
    ensures var o := Next(s, l, ServerActs(Open(false))); o.error == None && Opened(o.sys, l, n + 1)
  {
    assert s.server.nextChannelIndex % 1 == 0;
  }

  lemma {:induction false} OpensReach(l: Limits, n: nat) returns (evs: seq<SysEvent>, t: Sys)
    requires n <= MAX_SAFE_INTEGER
    ensures Leads(l, evs, t) && Opened(t, l, n)
  {
    if n == 0 {
      evs, t := [], InitSys(1, l);
    } else {
      var s;
      evs, s := OpensReach(l, n - 1);
      OpenOne(l, s, n - 1);
      t := Next(s, l, ServerActs(Open(false))).sys;
      evs := Extend(l, evs, s, ServerActs(Open(false)), t);
    }
  }

  /** The ids the client remembers after failing streams 1 to k. */
  function Remembered(k: nat): seq<nat> {
    var n := Min(k, MAX_REMEMBERED_CLOSED_STREAMS);
    seq(n, j requires 0 <= j < n => k - n + 1 + j)
  }

  lemma RememberNext(k: nat)
    ensures Remember(Remembered(k), k + 1) == Remembered(k + 1)
    ensures k + 1 !in Remembered(k)
  {
    RememberFresh(Remembered(k), k + 1);
  }

  ghost predicate Failing(t: Sys, n: nat, k: nat) {
    && |t.down| == |t.up| == 1 && t.down[0].received == k && |t.down[0].sent| == n + 1
    && (forall j :: 0 <= j < n ==> t.down[0].sent[j] == RequestStart(j + 1, false))
    && t.down[0].sent[n] == RequestAbort(1)
    && t.client.streams == map[] && t.client.busy == map[] && t.client.closed == Remembered(k)
  }

  /** The client takes the start of stream k + 1. */
  lemma TakeStart(l: Limits, s: Sys, n: nat, k: nat)
    requires Failing(s, n, k) && k < n
    ensures CanStep(s, l, DeliverDown(0))
    ensures var o := Next(s, l, DeliverDown(0)); var m := o.sys;
            && o.error == None && |m.down| == |m.up| == 1 && m.down[0] == s.down[0].(received := k + 1)
            && m.client.streams.Keys == {k + 1} && m.client.busy == map[] && m.client.closed == Remembered(k)
  {
    RememberNext(k);
    ForgetAbsent(s.client.closed, k + 1);
  }

  lemma OneRound(l: Limits, before: seq<SysEvent>, s: Sys, n: nat, k: nat) returns (evs: seq<SysEvent>, t: Sys)
    requires Leads(l, before, s) && Failing(s, n, k) && k < n
    ensures Leads(l, evs, t) && Failing(t, n, k + 1)
  {
    TakeStart(l, s, n, k);
    RememberNext(k);
    var m := Next(s, l, DeliverDown(0)).sys;
    evs := Extend(l, before, s, DeliverDown(0), m);
    t := Next(m, l, ClientActs(UpstreamFail(k + 1))).sys;
    evs := Extend(l, evs, m, ClientActs(UpstreamFail(k + 1)), t);
    assert t.client.streams.Keys == {};
  }

  lemma {:induction false} RoundsReach(l: Limits, before: seq<SysEvent>, s: Sys, n: nat, k: nat) returns (evs: seq<SysEvent>, t: Sys)
    requires Leads(l, before, s) && Failing(s, n, 0) && k <= n
    ensures Leads(l, evs, t) && Failing(t, n, k)
  {
    if k == 0 {
      evs, t := before, s;
    } else {
      evs, t := RoundsReach(l, before, s, n, k - 1);
      evs, t := OneRound(l, evs, t, n, k - 1);
    }
  }

  lemma CancelFirst(l: Limits, s: Sys, n: nat)
    requires Opened(s, l, n) && n > 0
    ensures CanStep(s, l, ServerActs(PublicCancel(1)))
    ensures var o := Next(s, l, ServerActs(PublicCancel(1))); o.error == None && Failing(o.sys, n, 0)
  {
  }

  lemma ForgottenFirst(l: Limits, t: Sys, n: nat)
    requires Failing(t, n, n) && n > MAX_REMEMBERED_CLOSED_STREAMS
    ensures HasHead(t.down, 0) && Head(t.down, 0) == RequestAbort(1)
    ensures CanStep(t, l, DeliverDown(0)) && Next(t, l, DeliverDown(0)).error == Some(UnknownStream)
  {
    assert 1 !in t.client.closed;
  }

  /** Honest peers, one channel: n requests are opened and the first is cancelled; by the time its abort
      arrives the client has failed all of them and, if n is at least 4097, forgotten the first. */
  lemma LateAbortFailsConnection(l: Limits, n: nat) returns (evs: seq<SysEvent>, t: Sys)
    requires IsTunnelLimits(l) && MAX_REMEMBERED_CLOSED_STREAMS < n <= MAX_SAFE_INTEGER
    ensures Reached(1, l, evs, t) && HasHead(t.down, 0) && Head(t.down, 0) == RequestAbort(1)
    ensures CanStep(t, l, DeliverDown(0)) && Next(t, l, DeliverDown(0)).error == Some(UnknownStream)
  {
    var s;
    evs, s := OpensReach(l, n);
    CancelFirst(l, s, n);
    t := Next(s, l, ServerActs(PublicCancel(1))).sys;
    evs := Extend(l, evs, s, ServerActs(PublicCancel(1)), t);
    evs, t := RoundsReach(l, evs, t, n, n);
    ForgottenFirst(l, t, n);
  }

  // ----- the server drops -----

  /** The one request has reached the client; nothing has come back. */
  ghost predicate Asked(t: Sys, l: Limits) {
    && |t.down| == |t.up| == 1 && t.up[0].received == 0
    && t.server.streams == OnlyStream(false, 0, [], 0)
    && t.server.pendingDataBytes == 0 && t.server.delivered == map[]
    && Get(t.server.credit.inStream, Key(1, ResponseBody)) == l.streamCreditBytes
    && Get(t.server.credit.inChannel, 0) == l.channelCreditBytes
    && 1 in t.client.streams
    && t.client.streams[1].channel == 0
    && Get(t.client.credit.outStream, Key(1, ResponseBody)) == l.streamCreditBytes
    && Get(t.client.credit.outChannel, 0) == l.channelCreditBytes
  }

  const ANSWER: seq<Frame> := [ResponseStart(1, true), ResponseData(1, 0, FLAG_NONE, [7]), ResponseEnd(1, ResponseBody, 0)]

  lemma Ask(l: Limits) returns (evs: seq<SysEvent>, t: Sys)
    requires IsTunnelLimits(l)
    ensures Leads(l, evs, t) && Asked(t, l) && t.up[0].sent == [] && t.client.read == map[]
    ensures t.client.streams[1] == ClientStream(0, false, 0, None, 0, false, false, None)
  {
    var s := InitSys(1, l);
    var m := Next(s, l, ServerActs(Open(false))).sys;
    evs := Extend(l, [], s, ServerActs(Open(false)), m);
    assert Head(m.down, 0) == RequestStart(1, false);
    t := Next(m, l, DeliverDown(0)).sys;
    evs := Extend(l, evs, m, DeliverDown(0), t);
    FullChannelsGet(1, l.channelCreditBytes, 0);
  }

  /** The client sends RESPONSE_START and reads a byte from its upstream. */
  lemma RespondAndRead(l: Limits, before: seq<SysEvent>, s: Sys) returns (evs: seq<SysEvent>, t: Sys)
    requires Leads(l, before, s) && Asked(s, l) && s.up[0].sent == [] && s.client.read == map[]
    requires !s.client.streams[1].responding && s.client.streams[1].rest == None && s.client.streams[1].sendNext == 0
    ensures Leads(l, evs, t) && Asked(t, l) && t.up[0].sent == ANSWER[..1] && t.client.read == map[1 := [7]]
    ensures t.client.streams[1].responding && t.client.streams[1].rest == Some([7]) && t.client.streams[1].sendNext == 0
  {
    var m := Next(s, l, ClientActs(Respond(1, true))).sys;
    evs := Extend(l, before, s, ClientActs(Respond(1, true)), m);
    t := Next(m, l, ClientActs(UpstreamRead(1, [7]))).sys;
    evs := Extend(l, evs, m, ClientActs(UpstreamRead(1, [7])), t);
    assert GetBytes(m.client.read, 1) + [7] == [7];
  }

  lemma SendByte(l: Limits, s: Sys)
    requires IsTunnelLimits(l) && Asked(s, l) && s.up[0].sent == ANSWER[..1] && s.client.read == map[1 := [7]]
    requires s.client.streams[1].responding && s.client.streams[1].rest == Some([7]) && s.client.streams[1].sendNext == 0
    ensures CanStep(s, l, ClientActs(UpstreamSend(1)))
    ensures var o := Next(s, l, ClientActs(UpstreamSend(1)));
            && o.error == None && o.sys.server == s.server && |o.sys.up| == |o.sys.down| == 1
            && o.sys.up[0] == Channel(ANSWER[..2], 0) && o.sys.client.read == map[1 := [7]]
            && 1 in o.sys.client.streams
            && o.sys.client.streams[1] == s.client.streams[1].(sendNext := 1, rest := None)
  {
    var whole: bytes := [7];
    assert Chunk(whole, l.maxFrameBytes) == whole && AfterChunk(whole, l.maxFrameBytes) == None;
    assert ANSWER[..1] + [ResponseData(1, 0, FLAG_NONE, whole)] == ANSWER[..2];
  }

  lemma Answer(l: Limits, before: seq<SysEvent>, s: Sys) returns (evs: seq<SysEvent>, t: Sys)
    requires IsTunnelLimits(l) && Leads(l, before, s) && Asked(s, l) && s.up[0].sent == ANSWER[..1] && s.client.read == map[1 := [7]]
    requires s.client.streams[1].responding && s.client.streams[1].rest == Some([7]) && s.client.streams[1].sendNext == 0
    ensures Leads(l, evs, t) && |t.up| == |t.down| == 1 && t.up[0] == Channel(ANSWER, 0)
    ensures t.client.read == map[1 := [7]] && t.server == s.server
  {
    SendByte(l, s);
    var m := Next(s, l, ClientActs(UpstreamSend(1))).sys;
    evs := Extend(l, before, s, ClientActs(UpstreamSend(1)), m);
    t := Next(m, l, ClientActs(UpstreamEnd(1))).sys;
    evs := Extend(l, evs, m, ClientActs(UpstreamEnd(1)), t);
    assert ANSWER[..2] + [ANSWER[2]] == ANSWER;
  }

  function OnlyStream(started: bool, recvNext: nat, pending: seq<bytes>, pendingBytes: nat): map<nat, ServerStream> {
    map[1 := ServerStream(0, started, recvNext, None, None, pending, pendingBytes)]
  }

  /** The windows of the server are still large enough for a byte. */
  ghost predicate RoomForByte(s: Server) {
    && Get(s.credit.inStream, Key(1, ResponseBody)) >= 1 && Get(s.credit.inChannel, 0) >= 1
    && s.delivered == map[]
  }

  lemma StartArrives(s: Server, l: Limits)
    requires s.streams == OnlyStream(false, 0, [], 0)
    ensures var r := Receive(s, l, 0, ANSWER[0]);
            r == Reply(s.(streams := OnlyStream(true, 0, [], 0)), 0, [], None)
  {
    var s' := MarkStarted(s, 1);
    assert s'.streams == OnlyStream(true, 0, [], 0);
    assert !CanFlush(s', 1);
  }

  lemma ByteArrives(s: Server, l: Limits)
    requires IsTunnelLimits(l) && s.streams == OnlyStream(true, 0, [], 0) && s.pendingDataBytes == 0 && RoomForByte(s)
    ensures var r := Receive(s, l, 0, ANSWER[1]);
            r.error == None && r.out == [] && r.server.streams == OnlyStream(true, 1, [[7]], 1) && r.server.delivered == map[]
  {
    var none: seq<bytes> := [];
    assert none + [[7]] == [[7]];
  }

  lemma EndArrives(s: Server, l: Limits)
    requires s.streams == OnlyStream(true, 1, [[7]], 1)
    ensures var r := Receive(s, l, 0, ANSWER[2]);
            r.error == None && 1 !in r.server.streams && r.server.delivered == s.delivered
  {
  }

  lemma DeliverAnswer(l: Limits, before: seq<SysEvent>, s: Sys) returns (evs: seq<SysEvent>, t: Sys)
    requires IsTunnelLimits(l) && Leads(l, before, s) && |s.up| == 1 && s.up[0] == Channel(ANSWER, 0)
    requires s.server.streams == OnlyStream(false, 0, [], 0) && s.server.pendingDataBytes == 0 && RoomForByte(s.server)
    ensures Leads(l, evs, t) && t.client == s.client && 1 !in t.server.streams && t.server.delivered == map[]
  {
    StartArrives(s.server, l);
    var m := Next(s, l, DeliverUp(0)).sys;
    evs := Extend(l, before, s, DeliverUp(0), m);
    ByteArrives(m.server, l);
    var n := Next(m, l, DeliverUp(0)).sys;
    evs := Extend(l, evs, m, DeliverUp(0), n);
    EndArrives(n.server, l);
    t := Next(n, l, DeliverUp(0)).sys;
    evs := Extend(l, evs, n, DeliverUp(0), t);
  }

  /** Honest peers, one request, one byte of response: it and RESPONSE_END arrive before the public body
      exists, and the byte is lost. */
  lemma EarlyEndDropsResponse(l: Limits) returns (evs: seq<SysEvent>, t: Sys)
    requires IsTunnelLimits(l)
    ensures Reached(1, l, evs, t)
    ensures 1 !in t.server.streams && GetBytes(t.client.read, 1) == [7] && GetBytes(t.server.delivered, 1) == []
  {
    evs, t := Ask(l);
    evs, t := RespondAndRead(l, evs, t);
    evs, t := Answer(l, evs, t);
    evs, t := DeliverAnswer(l, evs, t);
  }

  // ----- the client gives up a stream over nothing -----

  /** A finished write leaves its stream live exactly when it wrote something: an empty chunk is answered
      with a zero-byte credit, which cannot be encoded. */
  lemma FinishWriteKeepsLive(cl: Client, c: nat)
    requires c in cl.busy && cl.busy[c].stream in cl.streams
    ensures cl.busy[c].stream in FinishWrite(cl, c).client.streams <==> cl.busy[c].payload != []
    ensures cl.busy[c].payload == [] ==> FinishWrite(cl, c).out == [ResponseAbort(cl.busy[c].stream)]
  {
  }

  const NOTHING: seq<Frame> := [RequestStart(1, true), RequestData(1, 0, FLAG_NONE, [])]

  /** The server opened a request with a body and sent one empty chunk of it. */
  ghost predicate NothingSent(t: Sys, l: Limits) {
    && |t.down| == |t.up| == 1 && t.down[0] == Channel(NOTHING, 0) && t.up[0] == Channel([], 0)
    && t.client == InitClient(1, l)
  }

  lemma SendNothing(l: Limits) returns (evs: seq<SysEvent>, t: Sys)
    requires IsTunnelLimits(l)
    ensures Leads(l, evs, t) && NothingSent(t, l)
  {
    var s := InitSys(1, l);
    var m := Next(s, l, ServerActs(Open(true))).sys;
    evs := Extend(l, [], s, ServerActs(Open(true)), m);
    var n := Next(m, l, ServerActs(PumpRead(1, []))).sys;
    evs := Extend(l, evs, m, ServerActs(PumpRead(1, [])), n);
    NothingToSend(n, l);
    t := Next(n, l, ServerActs(PumpSend(1))).sys;
    evs := Extend(l, evs, n, ServerActs(PumpSend(1)), t);
    assert [NOTHING[0]] + [NOTHING[1]] == NOTHING;
  }

  lemma NothingToSend(s: Sys, l: Limits)
    requires 1 in s.server.pumps && 1 in s.server.streams && s.server.pumps[1] == Pump(0, true, 0, [], Some([]), Active)
    ensures CanStep(s, l, ServerActs(PumpSend(1)))
    ensures Next(s, l, ServerActs(PumpSend(1))) == Outcome(Next(s, l, ServerActs(PumpSend(1))).sys, None)
    ensures PumpChunk(s.server, l, 1).out == [RequestData(1, 0, FLAG_NONE, [])]
  {
    var none: bytes := [];
    assert Chunk(none, l.maxFrameBytes) == none;
  }

  lemma TakeNothing(cl: Client, l: Limits)
    requires cl == InitClient(1, l)
    ensures var r := ReceiveFrame(cl, l, 0, NOTHING[0]);
            && r.error == None && r.out == [] && r.client.busy == map[] && r.client.closed == []
            && 1 in r.client.streams && r.client.streams[1] == ClientStream(0, true, 0, None, 0, false, false, None)
  {
  }

  lemma TakeEmptyChunk(cl: Client, l: Limits)
    requires 1 in cl.streams && cl.streams[1].channel == 0 && cl.streams[1].hasBody && cl.streams[1].recvNext == 0 && cl.closed == []
    ensures var r := ReceiveFrame(cl, l, 0, NOTHING[1]);
            r.error == None && r.out == [] && 1 in r.client.streams && 0 in r.client.busy && r.client.busy[0] == Writing(1, [])
  {
  }

  /** Honest peers, one request whose body yields one empty chunk: the client aborts the stream. */
  lemma EmptyChunkAborts(l: Limits) returns (evs: seq<SysEvent>, t: Sys)
    requires IsTunnelLimits(l)
    ensures Reached(1, l, evs, t) && 1 !in t.client.streams && |t.up| == 1 && t.up[0].sent == [ResponseAbort(1)]
  {
    var s;
    evs, s := SendNothing(l);
    TakeNothing(s.client, l);
    var m := Next(s, l, DeliverDown(0)).sys;
    evs := Extend(l, evs, s, DeliverDown(0), m);
    TakeEmptyChunk(m.client, l);
    var n := Next(m, l, DeliverDown(0)).sys;
    evs := Extend(l, evs, m, DeliverDown(0), n);
    FinishWriteKeepsLive(n.client, 0);
    t := Next(n, l, ClientActs(WriteDone(0))).sys;
    evs := Extend(l, evs, n, ClientActs(WriteDone(0)), t);
  }

  // ----- the client takes data after REQUEST_END -----

  /** Which data frames a client accepts for a live stream: it never asks whether REQUEST_END has arrived. */
  lemma DataAcceptedExactly(cl: Client, l: Limits, c: nat, f: Frame, endSeq: Option<int>)
    requires f.RequestData? && f.streamId in cl.streams && f.streamId !in cl.closed
    ensures ReceiveFrame(cl, l, c, f).error == None <==>
              && cl.streams[f.streamId].channel == c && f.flags == FLAG_NONE && f.seqNo == cl.streams[f.streamId].recvNext
              && ConsumeInbound(cl.credit, f.streamId, c, RequestBody, |f.payload|).ok
    ensures var cl' := cl.(streams := cl.streams[f.streamId := cl.streams[f.streamId].(endSeq := endSeq)]);
            ReceiveFrame(cl', l, c, f).error == ReceiveFrame(cl, l, c, f).error
  {
  }

  /** A client that has closed its request writer accepts another byte for it. */
  lemma DataAfterEndAccepted(l: Limits)
    requires IsTunnelLimits(l)
    ensures var r1 := ReceiveFrame(InitClient(1, l), l, 0, RequestStart(1, true));
            var r2 := ReceiveFrame(r1.client, l, 0, RequestEnd(1, RequestBody, -1));
            var r3 := ReceiveFrame(r2.client, l, 0, RequestData(1, 0, FLAG_NONE, [7]));
            && r1.error == r2.error == r3.error == None && 1 in r2.client.closedWriters
            && 0 in r3.client.busy && r3.client.busy[0] == Writing(1, [7])
  {
    FullChannelsGet(1, l.channelCreditBytes, 0);
    var cl1 := ReceiveFrame(InitClient(1, l), l, 0, RequestStart(1, true)).client;
    assert cl1.streams[1] == ClientStream(0, true, 0, None, 0, false, false, None);
    assert Get(cl1.credit.inStream, Key(1, RequestBody)) == l.streamCreditBytes;
    var cl2 := ReceiveFrame(cl1, l, 0, RequestEnd(1, RequestBody, -1)).client;
    DataAcceptedExactly(cl2, l, 0, RequestData(1, 0, FLAG_NONE, [7]), None);
  }
}
