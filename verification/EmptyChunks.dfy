/** Where the empty chunks that make the client abort a stream come from. */
module EmptyChunks {
  import opened Protocol
  import CreditSpec
  import opened Frames
  import opened ServerSpec
  import opened ClientSpec
  import opened System
  import opened Runs
  import opened Outcomes
  import opened RoundRobin
  import opened Counterexamples

  /** In this run the pump of stream i read an empty value from the public body. */
  predicate ReadNothing(evs: seq<SysEvent>, i: nat) {
    ServerActs(PumpRead(i, [])) in evs
  }

  predicate IsEmptyData(f: Frame) {
    f.RequestData? && f.payload == []
  }

  ghost predicate PumpsTraced(s: Server, evs: seq<SysEvent>) {
    forall i :: i in s.pumps && s.pumps[i].rest == Some([]) ==> ReadNothing(evs, i)
  }

  ghost predicate FramesTraced(fs: seq<Frame>, evs: seq<SysEvent>) {
    forall k :: 0 <= k < |fs| && IsEmptyData(fs[k]) ==> ReadNothing(evs, fs[k].streamId)
  }

  ghost predicate WritesTraced(cl: Client, evs: seq<SysEvent>) {
    forall c :: c in cl.busy && cl.busy[c].payload == [] ==> ReadNothing(evs, cl.busy[c].stream)
  }

  ghost predicate EmptyTraced(t: Sys, evs: seq<SysEvent>) {
    && PumpsTraced(t.server, evs) && WritesTraced(t.client, evs)
    && forall c :: 0 <= c < |t.down| ==> FramesTraced(t.down[c].sent, evs)
  }

  // ----- the server -----

  /** A chunk is empty only if the pump's value is, and what is left of a value never is. */
  lemma ChunkEmpty(rest: bytes, max: nat)
    requires max > 0
    ensures Chunk(rest, max) == [] <==> rest == []
    ensures AfterChunk(rest, max) != Some([])
  {
  }

  lemma PumpSendTraced(s: Server, l: Limits, i: nat, evs: seq<SysEvent>)
    requires IsTunnelLimits(l) && Enabled(s, l, PumpSend(i)) && PumpsTraced(s, evs)
    ensures PumpsTraced(PumpChunk(s, l, i).server, evs) && FramesTraced(PumpChunk(s, l, i).out, evs)
  {
    ChunkEmpty(s.pumps[i].rest.value, l.maxFrameBytes);
  }

  lemma FlushTraced(s: Server, i: nat, evs: seq<SysEvent>)
    requires i in s.streams && PumpsTraced(s, evs)
    ensures PumpsTraced(FlushPending(s, i).server, evs) && FramesTraced(FlushPending(s, i).out, evs)
  {
    FlushKeepsPumps(s, i);
    FlushSendsCredit(s, i);
  }

  lemma RoomTraced(s: Server, i: nat, room: nat, evs: seq<SysEvent>)
    requires i in s.streams && PumpsTraced(s, evs)
    ensures var r := FlushPending(WithRoom(s, i, room), i); PumpsTraced(r.server, evs) && FramesTraced(r.out, evs)
  {
    FlushTraced(WithRoom(s, i, room), i, evs);
  }

  lemma PullTraced(s: Server, i: nat, room: nat, evs: seq<SysEvent>)
    requires i in s.streams && PumpsTraced(s, evs)
    ensures PumpsTraced(PullBody(s, i, room).server, evs) && FramesTraced(PullBody(s, i, room).out, evs)
  {
    RoomTraced(s, i, room + 1, evs);
  }

  lemma QuietTraced(s: Server, l: Limits, ev: ServerEvent, evs: seq<SysEvent>)
    requires Enabled(s, l, ev) && (ev.Open? || ev.PumpEnd? || ev.PumpFail? || ev.PublicCancel? || ev.Drop?) && PumpsTraced(s, evs)
    ensures PumpsTraced(Step(s, l, ev).server, evs) && FramesTraced(Step(s, l, ev).out, evs)
  {
  }

  lemma ServerTraced(s: Server, l: Limits, ev: ServerEvent, evs: seq<SysEvent>)
    requires IsTunnelLimits(l) && Enabled(s, l, ev) && !ev.ReceiveUp? && PumpsTraced(s, evs) && ServerActs(ev) in evs
    ensures PumpsTraced(Step(s, l, ev).server, evs) && FramesTraced(Step(s, l, ev).out, evs)
  {
    if ev.PumpSend? {
      PumpSendTraced(s, l, ev.i, evs);
    } else if ev.AttachBody? {
      RoomTraced(s, ev.i, 1, evs);
    } else if ev.PublicRead? {
      PullTraced(s, ev.i, s.streams[ev.i].room.value, evs);
    } else if ev.PumpRead? {
      assert ev == PumpRead(ev.i, ev.value);
    } else {
      QuietTraced(s, l, ev, evs);
    }
  }

  // ----- the system -----

  lemma More(t: Sys, evs: seq<SysEvent>, ev: SysEvent)
    requires EmptyTraced(t, evs)
    ensures EmptyTraced(t, evs + [ev])
  {
    forall i | ReadNothing(evs, i) ensures ReadNothing(evs + [ev], i) {
    }
  }

  lemma SendTraced(chs: seq<Channel>, c: nat, fs: seq<Frame>, evs: seq<SysEvent>)
    requires FramesTraced(fs, evs) && forall d :: 0 <= d < |chs| ==> FramesTraced(chs[d].sent, evs)
    ensures forall d :: 0 <= d < |chs| ==> FramesTraced(Send(chs, c, fs)[d].sent, evs)
  {
  }

  lemma CleanupBusy(cl: Client, i: nat)
    ensures CleanupClient(cl, i).busy == cl.busy
  {
  }

  lemma RefuseBusy(cl: Client, i: nat, c: nat, n: nat)
    requires i in cl.streams
    ensures AbortResponse(AcceptRequestData(cl, i, c, n).(lost := Bump(cl.lost, c, n)), i, c).client.busy == cl.busy
  {
    var cl1 := AcceptRequestData(cl, i, c, n).(lost := Bump(cl.lost, c, n));
    assert cl1.busy == cl.busy;
    CleanupBusy(cl1, i);
  }

  lemma DataBusy(cl: Client, i: nat, c: nat, seqNo: nat, flags: nat, payload: bytes)
    requires i in cl.streams
    ensures var cl' := ReceiveRequestData(cl, i, c, seqNo, flags, payload).client;
            cl'.busy == cl.busy || cl'.busy == cl.busy[c := Writing(i, payload)]
  {
    RefuseBusy(cl, i, c, |payload|);
    var charged := CreditSpec.ConsumeInbound(cl.credit, i, c, RequestBody, |payload|).credit;
    assert cl.(credit := charged).busy == cl.busy;
  }

  lemma EndBusy(cl: Client, i: nat, c: nat, kind: DataKind, lastSeq: int)
    requires i in cl.streams
    ensures ReceiveRequestEnd(cl, i, c, kind, lastSeq).client.busy == cl.busy
  {
    var cl1 := EndRequest(cl, i, lastSeq);
    assert cl1.busy == cl.busy;
    CleanupBusy(cl1, i);
  }

  /** Only a data frame starts a write, and with its own payload. */
  lemma FrameBusy(cl: Client, l: Limits, c: nat, f: Frame)
    ensures var cl' := ReceiveFrame(cl, l, c, f).client;
            cl'.busy == cl.busy || (f.RequestData? && cl'.busy == cl.busy[c := Writing(f.streamId, f.payload)])
  {
    if f.RequestData? && f.streamId in cl.streams {
      DataBusy(cl, f.streamId, c, f.seqNo, f.flags, f.payload);
    } else if f.RequestEnd? && f.streamId in cl.streams {
      EndBusy(cl, f.streamId, c, f.kind, f.lastSeq);
    } else if f.RequestAbort? {
      CleanupBusy(cl, f.streamId);
    }
  }

  lemma FrameWrites(cl: Client, l: Limits, c: nat, f: Frame, evs: seq<SysEvent>)
    requires WritesTraced(cl, evs) && (IsEmptyData(f) ==> ReadNothing(evs, f.streamId))
    ensures WritesTraced(ReceiveFrame(cl, l, c, f).client, evs)
  {
    FrameBusy(cl, l, c, f);
  }

  lemma ClientWrites(cl: Client, l: Limits, ev: ClientEvent, evs: seq<SysEvent>)
    requires WritesTraced(cl, evs) && ClientEnabled(cl, l, ev) && !ev.ReceiveDown?
    ensures WritesTraced(ClientStep(cl, l, ev).client, evs)
  {
  }

  lemma NextTraced(t: Sys, l: Limits, ev: SysEvent, evs: seq<SysEvent>)
    requires IsTunnelLimits(l) && EmptyTraced(t, evs) && CanStep(t, l, ev) && ev in evs
    ensures EmptyTraced(Next(t, l, ev).sys, evs)
  {
    match ev
    case ServerActs(sev) =>
      ServerTraced(t.server, l, sev, evs);
      SendTraced(t.down, Step(t.server, l, sev).channel, Step(t.server, l, sev).out, evs);
    case ClientActs(cev) => ClientWrites(t.client, l, cev, evs);
    case DeliverUp(c) =>
      var r := Receive(t.server, l, c, Head(t.up, c));
      ReceiveKeepsPumps(t.server, l, c, Head(t.up, c), r);
      ReceiveSendsCredit(t.server, l, c, Head(t.up, c), r);
      SendTraced(t.down, r.channel, r.out, evs);
    case DeliverDown(c) => FrameWrites(t.client, l, c, Head(t.down, c), evs);
  }

  lemma {:induction false} ReachedTraced(channels: nat, l: Limits, evs: seq<SysEvent>, t: Sys)
    requires Reached(channels, l, evs, t)
    ensures EmptyTraced(t, evs)
    decreases |evs|
  {
    if evs != [] {
      var n := |evs| - 1;
      var s := After(InitSys(channels, l), l, evs[..n]).value;
      ReachedTraced(channels, l, evs[..n], s);
      assert evs == evs[..n] + [evs[n]];
      More(s, evs[..n], evs[n]);
      NextTraced(s, l, evs[n], evs);
    }
  }

  /** In every run of honest peers: a finished write ends its live stream if and only if the chunk was empty, and
      then the pump of that very stream has read an empty value; and whenever a pump's value is empty, the frame
      it sends for it is an empty chunk. */
  lemma EmptyChunksComeFromReads(channels: nat, l: Limits, evs: seq<SysEvent>, t: Sys, c: nat, i: nat)
    requires Reached(channels, l, evs, t)
    ensures c in t.client.busy && t.client.busy[c].stream in t.client.streams ==>
              var w := t.client.busy[c];
              (w.stream !in Next(t, l, ClientActs(WriteDone(c))).sys.client.streams <==> w.payload == [])
              && (w.payload == [] ==> ReadNothing(evs, w.stream))
    ensures CanStep(t, l, ServerActs(PumpSend(i))) ==>
              var r := Step(t.server, l, PumpSend(i));
              |r.out| == 1 && (IsEmptyData(r.out[0]) <==> t.server.pumps[i].rest == Some([]))
  {
    ReachedTraced(channels, l, evs, t);
    if c in t.client.busy && t.client.busy[c].stream in t.client.streams {
      FinishWriteKeepsLive(t.client, c);
    }
    if CanStep(t, l, ServerActs(PumpSend(i))) {
      ChunkEmpty(t.server.pumps[i].rest.value, l.maxFrameBytes);
    }
  }
}
