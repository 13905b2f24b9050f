/** Whether a request has a body: what its opener said holds at both ends, over whole runs. */
module RequestKinds {
  import opened Protocol
  import opened Frames
  import opened ServerSpec
  import opened ServerSafety
  import opened ServerOps
  import opened ClientSpec
  import opened System
  import opened Runs
  import opened RoundRobin
  import opened Outcomes
  import opened Notices
  import ClientLogs

  ghost predicate PumpsAgree(s: Server) {
    forall i :: i in s.pumps && !s.pumps[i].hasBody ==> s.pumps[i].read == []
  }

  ghost predicate FramesAgree(fs: seq<Frame>, s: Server) {
    forall k :: 0 <= k < |fs| && fs[k].RequestStart? ==>
      fs[k].streamId in s.pumps && s.pumps[fs[k].streamId].hasBody == fs[k].hasBody
  }

  ghost predicate StreamsAgree(cl: Client, s: Server) {
    forall i :: i in cl.streams ==> i in s.pumps && s.pumps[i].hasBody == cl.streams[i].hasBody
  }

  ghost predicate Agree(t: Sys) {
    && PumpsAgree(t.server) && StreamsAgree(t.client, t.server)
    && forall c :: 0 <= c < |t.down| ==> FramesAgree(t.down[c].sent, t.server)
  }

  /** A pump's kind is settled when it starts. */
  ghost predicate KindsKept(s: Server, s': Server) {
    forall i :: i in s.pumps ==> i in s'.pumps && s'.pumps[i].hasBody == s.pumps[i].hasBody
  }

  // ----- the server -----

  lemma RoomKinds(s: Server, i: nat, room: nat, r: Reply)
    requires i in s.streams && PumpsAgree(s) && r == FlushPending(WithRoom(s, i, room), i)
    ensures KindsKept(s, r.server) && PumpsAgree(r.server) && FramesAgree(r.out, r.server)
  {
    FlushKeepsPumps(WithRoom(s, i, room), i);
    FlushSendsCredit(WithRoom(s, i, room), i);
  }

  lemma PlainKinds(s: Server, l: Limits, ev: ServerEvent, r: Reply)
    requires Enabled(s, l, ev) && !ev.ReceiveUp? && !ev.AttachBody? && !ev.PublicRead? && PumpsAgree(s)
    requires s.nextStreamId !in s.pumps && r == Step(s, l, ev)
    ensures KindsKept(s, r.server) && PumpsAgree(r.server) && FramesAgree(r.out, r.server)
  {
  }

  lemma PullIs(s: Server, i: nat, room: nat)
    requires i in s.streams
    ensures PullBody(s, i, room) == FlushPending(WithRoom(s, i, room + 1), i)
  {
  }

  lemma OwnKinds(s: Server, l: Limits, ev: ServerEvent, r: Reply)
    requires Enabled(s, l, ev) && !ev.ReceiveUp? && PumpsAgree(s) && s.nextStreamId !in s.pumps && r == Step(s, l, ev)
    ensures KindsKept(s, r.server) && PumpsAgree(r.server) && FramesAgree(r.out, r.server)
  {
    if ev.AttachBody? {
      RoomKinds(s, ev.i, 1, r);
    } else if ev.PublicRead? {
      PullIs(s, ev.i, s.streams[ev.i].room.value);
      RoomKinds(s, ev.i, s.streams[ev.i].room.value + 1, r);
    } else {
      PlainKinds(s, l, ev, r);
    }
  }

  lemma TakenKinds(s: Server, l: Limits, c: nat, f: Frame, r: Reply)
    requires PumpsAgree(s) && r == Receive(s, l, c, f)
    ensures KindsKept(s, r.server) && PumpsAgree(r.server) && FramesAgree(r.out, r.server)
  {
    ReceiveKeepsPumps(s, l, c, f, r);
    ReceiveSendsCredit(s, l, c, f, r);
  }

  // ----- the client -----

  /** No stream changes its kind, and a new one is of the kind its RequestStart names. */
  ghost predicate StreamsKept(cl: Client, cl': Client, start: Option<Frame>) {
    forall i :: i in cl'.streams ==>
      || (i in cl.streams && cl'.streams[i].hasBody == cl.streams[i].hasBody)
      || start == Some(RequestStart(i, cl'.streams[i].hasBody))
  }

  lemma CleanupKinds(cl: Client, cl1: Client, i: nat, cl': Client)
    requires StreamsKept(cl, cl1, None) && cl' == CleanupClient(cl1, i)
    ensures StreamsKept(cl, cl', None)
  {
  }

  lemma WriteKinds(cl: Client, l: Limits, ev: ClientEvent, cl': Client)
    requires ClientEnabled(cl, l, ev) && (ev.WriteDone? || ev.WriteFail?) && cl' == ClientStep(cl, l, ev).client
    ensures StreamsKept(cl, cl', None)
  {
    var i, payload := cl.busy[ev.c].stream, cl.busy[ev.c].payload;
    if ev.WriteFail? {
      var cl1 := cl.(busy := cl.busy - {ev.c}, lost := Bump(cl.lost, ev.c, |payload|));
      CleanupKinds(cl, cl1, i, CleanupClient(cl1, i));
    }
  }

  lemma ClientKinds(cl: Client, l: Limits, ev: ClientEvent, cl': Client)
    requires ClientEnabled(cl, l, ev) && !ev.ReceiveDown? && cl' == ClientStep(cl, l, ev).client
    ensures StreamsKept(cl, cl', None)
  {
    if ev.WriteDone? || ev.WriteFail? {
      WriteKinds(cl, l, ev, cl');
    } else if ev.UpstreamEnd? || ev.UpstreamFail? {
      CleanupKinds(cl, cl, ev.i, cl');
    }
  }

  /** Stream i with one more frame taken. */
  function Taken(cl: Client, i: nat): map<nat, ClientStream>
    requires i in cl.streams
  {
    cl.streams[i := cl.streams[i].(recvNext := cl.streams[i].recvNext + 1)]
  }

  lemma RefusedStreams(cl: Client, i: nat, c: nat, n: nat)
    requires i in cl.streams
    ensures AcceptRequestData(cl, i, c, n).streams == Taken(cl, i)
    ensures AbortResponse(AcceptRequestData(cl, i, c, n).(lost := Bump(cl.lost, c, n)), i, c).client.streams == Taken(cl, i) - {i}
  {
  }

  lemma DataCases(cl: Client, i: nat, c: nat, seqNo: nat, flags: nat, payload: bytes, r: ClientReply)
    requires i in cl.streams && r == ReceiveRequestData(cl, i, c, seqNo, flags, payload)
    ensures || r.client.streams == cl.streams
            || r.client.streams == AcceptRequestData(cl, i, c, |payload|).streams
            || r == AbortResponse(AcceptRequestData(cl, i, c, |payload|).(lost := Bump(cl.lost, c, |payload|)), i, c)
  {
  }

  lemma DataKinds(cl: Client, i: nat, c: nat, seqNo: nat, flags: nat, payload: bytes)
    requires i in cl.streams
    ensures StreamsKept(cl, ReceiveRequestData(cl, i, c, seqNo, flags, payload).client, None)
  {
    DataCases(cl, i, c, seqNo, flags, payload, ReceiveRequestData(cl, i, c, seqNo, flags, payload));
    RefusedStreams(cl, i, c, |payload|);
  }

  lemma EndKinds(cl: Client, i: nat, c: nat, kind: DataKind, lastSeq: int)
    requires i in cl.streams
    ensures StreamsKept(cl, ReceiveRequestEnd(cl, i, c, kind, lastSeq).client, None)
  {
    var cl1 := EndRequest(cl, i, lastSeq);
    assert StreamsKept(cl, cl1, None);
    CleanupKinds(cl, cl1, i, CleanupClient(cl1, i));
  }

  lemma DispatchKinds(cl: Client, c: nat, f: Frame)
    requires !f.ChannelCredit? && f.streamId in cl.streams
    ensures StreamsKept(cl, DispatchRequestFrame(cl, c, f).client, None)
  {
    match f
    case RequestData(i, seqNo, flags, payload) => DataKinds(cl, i, c, seqNo, flags, payload);
    case RequestEnd(i, kind, lastSeq) => EndKinds(cl, i, c, kind, lastSeq);
    case RequestAbort(i) => CleanupKinds(cl, cl, i, CleanupClient(cl, i));
    case _ =>
  }

  lemma FrameCases(cl: Client, l: Limits, c: nat, f: Frame, r: ClientReply)
    requires r == ReceiveFrame(cl, l, c, f)
    ensures || r.client.streams == cl.streams
            || (f.RequestStart? && r == StartRequest(cl, l, c, f.streamId, f.hasBody))
            || (!f.ChannelCredit? && f.streamId in cl.streams && r == DispatchRequestFrame(cl, c, f))
  {
  }

  lemma StartKinds(cl: Client, l: Limits, c: nat, i: nat, hasBody: bool)
    ensures StreamsKept(cl, StartRequest(cl, l, c, i, hasBody).client, Some(RequestStart(i, hasBody)))
  {
  }

  lemma FrameKinds(cl: Client, l: Limits, c: nat, f: Frame, cl': Client)
    requires cl' == ReceiveFrame(cl, l, c, f).client
    ensures StreamsKept(cl, cl', Some(f))
  {
    FrameCases(cl, l, c, f, ReceiveFrame(cl, l, c, f));
    if f.RequestStart? {
      StartKinds(cl, l, c, f.streamId, f.hasBody);
    }
    if !f.ChannelCredit? && f.streamId in cl.streams {
      DispatchKinds(cl, c, f);
    }
  }

  // ----- the system -----

  lemma AgreeSent(t: Sys, r: Reply, up: seq<Channel>)
    requires Agree(t) && KindsKept(t.server, r.server) && PumpsAgree(r.server) && FramesAgree(r.out, r.server)
    ensures Agree(Sys(r.server, t.client, Send(t.down, r.channel, r.out), up))
  {
    var down := Send(t.down, r.channel, r.out);
    forall c | 0 <= c < |down| ensures FramesAgree(down[c].sent, r.server) {
      assert FramesAgree(t.down[c].sent, t.server);
    }
  }

  lemma NextAgrees(t: Sys, l: Limits, ev: SysEvent)
    requires Agree(t) && CanStep(t, l, ev) && t.server.nextStreamId !in t.server.pumps
    ensures Agree(Next(t, l, ev).sys) && KindsKept(t.server, Next(t, l, ev).sys.server)
  {
    match ev
    case ServerActs(sev) =>
      var r := Step(t.server, l, sev);
      OwnKinds(t.server, l, sev, r);
      AgreeSent(t, r, t.up);
    case ClientActs(cev) =>
      ClientKinds(t.client, l, cev, ClientStep(t.client, l, cev).client);
    case DeliverUp(c) =>
      var r := Receive(t.server, l, c, Head(t.up, c));
      TakenKinds(t.server, l, c, Head(t.up, c), r);
      AgreeSent(t, r, Advance(t.up, c));
    case DeliverDown(c) =>
      FrameKinds(t.client, l, c, Head(t.down, c), ReceiveFrame(t.client, l, c, Head(t.down, c)).client);
      assert FramesAgree(t.down[c].sent, t.server);
  }

  lemma {:induction false} ReachedAgree(channels: nat, l: Limits, evs: seq<SysEvent>, t: Sys)
    requires Reached(channels, l, evs, t)
    ensures Agree(t)
    decreases |evs|
  {
    if evs != [] {
      var s := LastStep(channels, l, evs, t);
      ReachedAgree(channels, l, evs[..|evs| - 1], s);
      NextAgrees(s, l, evs[|evs| - 1]);
    }
  }

  /** The n-th event of this run opens stream i. */
  ghost predicate Opens(channels: nat, l: Limits, evs: seq<SysEvent>, n: nat, i: nat, hasBody: bool) {
    && n < |evs| && evs[n] == ServerActs(Open(hasBody)) && After(InitSys(channels, l), l, evs[..n]).Some?
    && After(InitSys(channels, l), l, evs[..n]).value.server.nextStreamId == i
  }

  lemma OpenStarts(t: Sys, l: Limits, hasBody: bool)
    requires CanStep(t, l, ServerActs(Open(hasBody)))
    ensures var s := Next(t, l, ServerActs(Open(hasBody))).sys.server;
            t.server.nextStreamId in s.pumps && s.pumps[t.server.nextStreamId].hasBody == hasBody
  {
  }

  lemma {:induction false} OpenedKind(channels: nat, l: Limits, evs: seq<SysEvent>, t: Sys, n: nat, i: nat, hasBody: bool)
    requires Reached(channels, l, evs, t) && Opens(channels, l, evs, n, i, hasBody)
    ensures i in t.server.pumps && t.server.pumps[i].hasBody == hasBody
    decreases |evs|
  {
    var last := |evs| - 1;
    var s := LastStep(channels, l, evs, t);
    if n == last {
      OpenStarts(s, l, hasBody);
    } else {
      assert evs[..last][..n] == evs[..n];
      OpenedKind(channels, l, evs[..last], s, n, i, hasBody);
      ReachedAgree(channels, l, evs[..last], s);
      NextAgrees(s, l, evs[last]);
    }
  }

  /** In every run a stream opened with a body, and only such a stream, has a request writer at the client as long as
      it is live there; of one opened without, not a byte is read or written. */
  lemma KindAsOpened(channels: nat, l: Limits, evs: seq<SysEvent>, t: Sys, n: nat, i: nat, hasBody: bool)
    requires Reached(channels, l, evs, t) && Opens(channels, l, evs, n, i, hasBody)
    ensures i in t.client.streams ==> t.client.streams[i].hasBody == hasBody
    ensures !hasBody ==> i in t.server.pumps && t.server.pumps[i].read == [] && GetBytes(t.client.written, i) == []
  {
    OpenedKind(channels, l, evs, t, n, i, hasBody);
    ReachedAgree(channels, l, evs, t);
    RequestBodyExact(channels, l, evs, t, i);
    if !hasBody && i !in t.client.homes {
      NothingWritten(channels, l, evs, t, i);
    }
  }

  lemma NothingWritten(channels: nat, l: Limits, evs: seq<SysEvent>, t: Sys, i: nat)
    requires Reached(channels, l, evs, t) && i !in t.client.homes
    ensures GetBytes(t.client.written, i) == []
  {
    ReachedInv(channels, l, evs, t);
    assert ClientLogs.CPartLog(ClientLogs.CPartOf(t.client, i), l, [], []);
  }
}
