/** The server's own steps keep ServerInv: opening, pumping, cancelling, attaching and reading. */
module ServerEvents {
  import opened Protocol
  import opened Frames
  import opened ServerSpec
  import opened ServerSafety
  import opened ServerTheorems
  import opened ServerLogs
  import opened ServerLogOps
  import opened ServerHonest

  lemma ChunkSplits(rest: bytes, maxFrameBytes: nat)
    ensures var next := AfterChunk(rest, maxFrameBytes);
            rest == Chunk(rest, maxFrameBytes) + if next.None? then [] else next.value
  {
    var k := Min(maxFrameBytes, |rest|);
    assert rest == rest[..k] + rest[k..];
  }

  // ----- the pump -----

  lemma PumpSendLog(q: Pump, q': Pump, i: nat, chunk: bytes, sent: seq<Frame>)
    requires PumpLog(q, sent) && q.status == Active && !Aborted(sent)
    requires RestOf(q) == chunk + RestOf(q') && q' == q.(sendNext := q.sendNext + 1, rest := q'.rest)
    ensures PumpLog(q', sent + [RequestData(i, q.sendNext, FLAG_NONE, chunk)])
  {
    Snoc(sent, RequestData(i, q.sendNext, FLAG_NONE, chunk));
    assert Payload(sent) + (chunk + RestOf(q')) == (Payload(sent) + chunk) + RestOf(q');
  }

  lemma PumpSendFlow(p: Part, p': Part, l: Limits, i: nat, seqNo: nat, chunk: bytes, sent: seq<Frame>, recvd: seq<Frame>)
    requires PartLog(p, l, sent, recvd) && p.stream.Some? && |chunk| <= p.outCredit
    requires p' == p.(pump := p'.pump, outCredit := p.outCredit - |chunk|)
    ensures FlowLog(p', l, sent + [RequestData(i, seqNo, FLAG_NONE, chunk)], recvd)
    ensures LiveLog(p'.stream.value, p', l, sent + [RequestData(i, seqNo, FLAG_NONE, chunk)], recvd)
  {
    Snoc(sent, RequestData(i, seqNo, FLAG_NONE, chunk));
  }

  lemma PumpSendPart(p: Part, p': Part, l: Limits, i: nat, sent: seq<Frame>, recvd: seq<Frame>)
    requires PartLog(p, l, sent, recvd) && p.stream.Some? && p.pump.value.status == Active && p.pump.value.rest.Some?
    requires var q := p.pump.value; var chunk := Chunk(q.rest.value, l.maxFrameBytes);
             |chunk| <= p.outCredit
             && p' == p.(pump := Some(q.(sendNext := q.sendNext + 1, rest := AfterChunk(q.rest.value, l.maxFrameBytes))),
                         outCredit := p.outCredit - |chunk|)
    ensures PartLog(p', l, sent + [RequestData(i, p.pump.value.sendNext, FLAG_NONE, Chunk(p.pump.value.rest.value, l.maxFrameBytes))], recvd)
  {
    var q := p.pump.value;
    ChunkSplits(q.rest.value, l.maxFrameBytes);
    PumpSendLog(q, p'.pump.value, i, Chunk(q.rest.value, l.maxFrameBytes), sent);
    PumpSendFlow(p, p', l, i, q.sendNext, Chunk(q.rest.value, l.maxFrameBytes), sent, recvd);
  }

  lemma PumpEndPart(p: Part, p': Part, l: Limits, i: nat, sent: seq<Frame>, recvd: seq<Frame>)
    requires PartLog(p, l, sent, recvd) && p.pump.value.status == Active && p.pump.value.rest.None?
    requires p' == p.(pump := Some(p.pump.value.(status := EndSent)))
    ensures PartLog(p', l, sent + [RequestEnd(i, RequestBody, p.pump.value.sendNext - 1)], recvd)
  {
    Snoc(sent, RequestEnd(i, RequestBody, p.pump.value.sendNext - 1));
  }

  lemma PumpReadPart(p: Part, p': Part, l: Limits, value: bytes, sent: seq<Frame>, recvd: seq<Frame>)
    requires PartLog(p, l, sent, recvd) && p.pump.value.status == Active && p.pump.value.rest.None?
    requires p' == p.(pump := Some(p.pump.value.(read := p.pump.value.read + value, rest := Some(value))))
    ensures PartLog(p', l, sent, recvd)
  {
    assert Payload(sent) + [] == Payload(sent);
  }

  lemma PumpFailPart(p: Part, p': Part, l: Limits, sent: seq<Frame>, recvd: seq<Frame>)
    requires PartLog(p, l, sent, recvd) && p.pump.value.status == Active
    requires p' == p.(pump := Some(p.pump.value.(status := Failed)))
    ensures PartLog(p', l, sent, recvd)
  {
  }

  lemma PumpSendEffect(s: Server, l: Limits, i: nat)
    requires Enabled(s, l, PumpSend(i))
    ensures var r := PumpChunk(s, l, i); var q := s.pumps[i]; var chunk := Chunk(q.rest.value, l.maxFrameBytes);
            var p := PartOf(s, i); var a := LaneOf(s, q.channel);
            && PumpOnly(s, r.server, i)
            && |chunk| <= p.outCredit && |chunk| <= a.outCredit
            && PartOf(r.server, i) == p.(pump := Some(q.(sendNext := q.sendNext + 1, rest := AfterChunk(q.rest.value, l.maxFrameBytes))),
                                         outCredit := p.outCredit - |chunk|)
            && LaneOf(r.server, q.channel) == a.(outCredit := a.outCredit - |chunk|)
  {
  }

  lemma PumpSendStep(s: Server, l: Limits, D: Logs, U: Logs, i: nat, c: nat)
    requires Near(s, l, D, U, i, c) && Enabled(s, l, PumpSend(i))
    ensures var r := PumpChunk(s, l, i); LogStep(s, r.server, l, D, U, i, c, r.out, [])
  {
    var r := PumpChunk(s, l, i);
    PumpSendEffect(s, l, i);
    PumpOnlyMoves(s, r.server, i);
    PumpSendPart(PartOf(s, i), PartOf(r.server, i), l, i, Proj(D[c], i), Proj(U[c], i));
    Snoc(D[c], r.out[0]);
    ProjSnoc(D[c], r.out[0], i);
    PutNothing(U, c);
  }

  /** A pump step that sends no data: only the pump's own record changes. */
  lemma PumpRecordEffect(s: Server, s': Server, i: nat)
    requires i in s.pumps && i in s'.pumps && s' == s.(pumps := s.pumps[i := s'.pumps[i]])
    requires s'.pumps[i].channel == s.pumps[i].channel
    ensures Moves(s, s', i, s.pumps[i].channel)
    ensures LaneOf(s', s.pumps[i].channel) == LaneOf(s, s.pumps[i].channel)
  {
    assert PumpOnly(s, s', i);
    PumpOnlyMoves(s, s', i);
  }

  lemma EndSnoc(fs: seq<Frame>, out: seq<Frame>, i: nat)
    requires out == [] || (|out| == 1 && Of(out[0], i) && out[0].RequestEnd?)
    ensures Payload(fs + out) == Payload(fs) && ChannelGrants(fs + out) == ChannelGrants(fs)
    ensures Proj(fs + out, i) == Proj(fs, i) + out
  {
    if out == [] {
      assert fs + out == fs;
    } else {
      assert out == [out[0]];
      Snoc(fs, out[0]);
      ProjSnoc(fs, out[0], i);
    }
  }

  lemma PumpQuietStep(s: Server, s': Server, l: Limits, D: Logs, U: Logs, i: nat, c: nat, out: seq<Frame>)
    requires Near(s, l, D, U, i, c) && i in s'.pumps && s' == s.(pumps := s.pumps[i := s'.pumps[i]])
    requires s'.pumps[i].channel == c
    requires out == [] || (|out| == 1 && Of(out[0], i) && out[0].RequestEnd?)
    requires PartLog(PartOf(s', i), l, Proj(D[c], i) + out, Proj(U[c], i))
    ensures LogStep(s, s', l, D, U, i, c, out, [])
  {
    PumpRecordEffect(s, s', i);
    PutNothing(U, c);
    EndSnoc(D[c], out, i);
  }

  lemma PumpLogStep(s: Server, l: Limits, D: Logs, U: Logs, ev: ServerEvent)
    requires Enabled(s, l, ev) && (ev.PumpRead? || ev.PumpSend? || ev.PumpEnd?)
    requires Near(s, l, D, U, ev.i, s.pumps[ev.i].channel)
    ensures var r := Step(s, l, ev); LogStep(s, r.server, l, D, U, ev.i, r.channel, r.out, [])
  {
    var i := ev.i;
    var c := s.pumps[i].channel;
    var r := Step(s, l, ev);
    match ev
    case PumpRead(_, value) =>
      PumpReadPart(PartOf(s, i), PartOf(r.server, i), l, value, Proj(D[c], i), Proj(U[c], i));
      assert Proj(D[c], i) + [] == Proj(D[c], i);
      PumpQuietStep(s, r.server, l, D, U, i, c, r.out);
    case PumpSend(_) => PumpSendStep(s, l, D, U, i, c);
    case PumpEnd(_) =>
      PumpEndPart(PartOf(s, i), PartOf(r.server, i), l, i, Proj(D[c], i), Proj(U[c], i));
      PumpQuietStep(s, r.server, l, D, U, i, c, r.out);
  }

  lemma PumpLogInv(s: Server, l: Limits, D: Logs, U: Logs, ev: ServerEvent)
    requires ServerInv(s, l, D, U) && Enabled(s, l, ev) && (ev.PumpRead? || ev.PumpSend? || ev.PumpEnd?)
    ensures var r := Step(s, l, ev); r.channel < |D| && ServerLog(r.server, l, Put(D, r.channel, r.out), U)
  {
    var i := ev.i;
    var c := s.pumps[i].channel;
    NearLog(s, l, D, U, i);
    PumpLogStep(s, l, D, U, ev);
    LogStepLog(s, Step(s, l, ev).server, l, D, U, i, c, Step(s, l, ev).out, []);
    PutNothing(U, c);
  }

  lemma PumpFailLog(s: Server, l: Limits, D: Logs, U: Logs, i: nat)
    requires ServerInv(s, l, D, U) && Enabled(s, l, PumpFail(i))
    ensures var r := FailPump(s, i); r.channel < |D| && ServerLog(r.server, l, Put(D, r.channel, r.out), U)
  {
    var c := s.pumps[i].channel;
    var s1 := s.(pumps := s.pumps[i := s.pumps[i].(status := Failed)]);
    NearLog(s, l, D, U, i);
    PumpFailPart(PartOf(s, i), PartOf(s1, i), l, Proj(D[c], i), Proj(U[c], i));
    assert Proj(D[c], i) + [] == Proj(D[c], i);
    PumpQuietStep(s, s1, l, D, U, i, c, []);
    LogStepLog(s, s1, l, D, U, i, c, [], []);
    PutNothing(U, c);
    PutNothing(D, c);
    PumpOnlySafe(s, s1, l, i);
    if i in s.streams {
      CancelLog(s1, l, D, U, i);
    }
  }

  // ----- opening a stream -----

  lemma OpenPart(l: Limits, p: Part, i: nat, c: nat, hasBody: bool)
    requires p == Part(Some(ServerStream(c, false, 0, None, None, [], 0)), Some(Pump(c, hasBody, 0, [], None, Active)), [],
                       l.streamCreditBytes, l.streamCreditBytes)
    ensures PartLog(p, l, [RequestStart(i, hasBody)], [])
  {
    Snoc([], RequestStart(i, hasBody));
    assert [] + [RequestStart(i, hasBody)] == [RequestStart(i, hasBody)];
  }

  /** What opening a stream does to it and leaves alone. */
  lemma OpenEffect(s: Server, l: Limits, hasBody: bool, r: Reply)
    requires IdsSafe(s) && r == OpenStream(s, l, hasBody) && GetBytes(s.delivered, s.nextStreamId) == []
    ensures var i := s.nextStreamId;
            && r.channel < s.dataChannels && r.out == [RequestStart(i, hasBody)] && i !in s.pumps
            && r.server.pumps.Keys == s.pumps.Keys + {i} && r.server.pumps[i].channel == r.channel
            && PartOf(r.server, i) == Part(Some(ServerStream(r.channel, false, 0, None, None, [], 0)),
                                           Some(Pump(r.channel, hasBody, 0, [], None, Active)), [], l.streamCreditBytes, l.streamCreditBytes)
    ensures forall j :: j in s.pumps ==> r.server.pumps[j] == s.pumps[j] && PartOf(r.server, j) == PartOf(s, j)
  {
    forall j | j in s.pumps ensures r.server.pumps[j] == s.pumps[j] && PartOf(r.server, j) == PartOf(s, j) {
      OpenParts(s, l, hasBody, j);
    }
  }

  lemma OpenedStreamLog(s: Server, l: Limits, D: Logs, U: Logs, i: nat, c: nat, hasBody: bool, p: Part)
    requires |D| == |U| && c < |D| && i !in s.pumps && HomesLog(s, D, U)
    requires p == Part(Some(ServerStream(c, false, 0, None, None, [], 0)), Some(Pump(c, hasBody, 0, [], None, Active)), [],
                       l.streamCreditBytes, l.streamCreditBytes)
    ensures PartLog(p, l, Proj(D[c] + [RequestStart(i, hasBody)], i), Proj(U[c], i))
  {
    NoFrames(D[c], i);
    NoFrames(U[c], i);
    ProjSnoc(D[c], RequestStart(i, hasBody), i);
    OpenPart(l, p, i, c, hasBody);
  }

  lemma OpenStreamsLog(s: Server, l: Limits, D: Logs, U: Logs, hasBody: bool)
    requires IdsSafe(s) && ServerLog(s, l, D, U) && GetBytes(s.delivered, s.nextStreamId) == []
    ensures var r := OpenStream(s, l, hasBody); r.channel < |D| && StreamsLog(r.server, l, Put(D, r.channel, r.out), U)
  {
    var r := OpenStream(s, l, hasBody);
    OpenEffect(s, l, hasBody, r);
    OpenedLogs(s, r.server, l, D, U, s.nextStreamId, r.channel, hasBody);
  }

  lemma OpenedLogs(s: Server, s': Server, l: Limits, D: Logs, U: Logs, i: nat, c: nat, hasBody: bool)
    requires ServerLog(s, l, D, U) && c < |D| && i !in s.pumps && s'.pumps.Keys == s.pumps.Keys + {i} && s'.pumps[i].channel == c
    requires PartOf(s', i) == Part(Some(ServerStream(c, false, 0, None, None, [], 0)), Some(Pump(c, hasBody, 0, [], None, Active)), [],
                                   l.streamCreditBytes, l.streamCreditBytes)
    requires forall j :: j in s.pumps ==> s'.pumps[j] == s.pumps[j] && PartOf(s', j) == PartOf(s, j)
    ensures StreamsLog(s', l, Put(D, c, [RequestStart(i, hasBody)]), U)
  {
    var out := [RequestStart(i, hasBody)];
    var D' := Put(D, c, out);
    forall j | j in s'.pumps
      ensures s'.pumps[j].channel < |D'|
      ensures PartLog(PartOf(s', j), l, Proj(D'[s'.pumps[j].channel], j), Proj(U[s'.pumps[j].channel], j))
    {
      if j == i {
        OpenedStreamLog(s, l, D, U, i, c, hasBody, PartOf(s', i));
      } else {
        OnlyOfOthers(D[c], out, i, j);
        assert PartOf(s', j) == PartOf(s, j);
      }
    }
  }

  lemma OpenLanes(s: Server, l: Limits, D: Logs, U: Logs, hasBody: bool)
    requires s.dataChannels == |D| == |U| > 0 && LanesLog(s, l, D, U)
    ensures var r := OpenStream(s, l, hasBody); r.channel < |D| && LanesLog(r.server, l, Put(D, r.channel, r.out), U)
  {
    var r := OpenStream(s, l, hasBody);
    var D' := Put(D, r.channel, r.out);
    Snoc(D[r.channel], r.out[0]);
    forall d | 0 <= d < |D'| ensures LaneLog(LaneOf(r.server, d), l, D'[d], U[d]) {
      assert LaneOf(r.server, d) == LaneOf(s, d);
    }
  }

  lemma OpenHomes(s: Server, l: Limits, D: Logs, U: Logs, hasBody: bool)
    requires s.dataChannels == |D| == |U| > 0 && HomesLog(s, D, U) && s.nextStreamId !in s.pumps
    ensures var r := OpenStream(s, l, hasBody); r.channel < |D| && HomesLog(r.server, Put(D, r.channel, r.out), U)
  {
    var r := OpenStream(s, l, hasBody);
    var D' := Put(D, r.channel, r.out);
    forall d | 0 <= d < |D'| ensures HomeLog(D'[d], r.server.pumps, d) && HomeLog(U[d], r.server.pumps, d) {
      if d == r.channel {
        HomeAppend(D[d], r.out, s.pumps, r.server.pumps, s.nextStreamId, d);
      }
    }
  }

  lemma OpenLog(s: Server, l: Limits, D: Logs, U: Logs, hasBody: bool)
    requires ServerInv(s, l, D, U)
    ensures var r := OpenStream(s, l, hasBody); r.channel < |D| && ServerLog(r.server, l, Put(D, r.channel, r.out), U)
  {
    assert PartOf(s, s.nextStreamId).delivered == [];
    OpenStreamsLog(s, l, D, U, hasBody);
    OpenLanes(s, l, D, U, hasBody);
    OpenHomes(s, l, D, U, hasBody);
  }

  /** Every step the server takes on its own keeps its invariant and its logs, and never fails. */
  lemma OwnStepInv(s: Server, l: Limits, D: Logs, U: Logs, ev: ServerEvent)
    requires ServerInv(s, l, D, U) && Enabled(s, l, ev) && !ev.ReceiveUp?
    ensures var r := Step(s, l, ev);
            r.error == None && r.channel < |D| && ServerInv(r.server, l, Put(D, r.channel, r.out), U)
  {
    OwnStepLog(s, l, D, U, ev);
    StepSafe(s, l, ev);
  }

  ghost predicate Logged(r: Reply, l: Limits, D: Logs, U: Logs) {
    r.error == None && r.channel < |D| && ServerLog(r.server, l, Put(D, r.channel, r.out), U)
  }

  lemma RoomLogged(s: Server, l: Limits, D: Logs, U: Logs, i: nat, room: nat, r: Reply)
    requires ServerInv(s, l, D, U) && i in s.streams
    requires r == FlushPending(WithRoom(s, i, room), i)
    ensures Logged(r, l, D, U)
  {
    RoomLog(s, l, D, U, i, room);
    FlushNeverFails(WithRoom(s, i, room), i);
  }

  lemma PumpLogged(s: Server, l: Limits, D: Logs, U: Logs, ev: ServerEvent)
    requires ServerInv(s, l, D, U) && Enabled(s, l, ev) && (ev.PumpRead? || ev.PumpSend? || ev.PumpEnd? || ev.PumpFail?)
    ensures Logged(Step(s, l, ev), l, D, U)
  {
    if ev.PumpFail? {
      PumpFailLog(s, l, D, U, ev.i);
    } else {
      PumpLogInv(s, l, D, U, ev);
    }
  }

  lemma PullLogged(s: Server, l: Limits, D: Logs, U: Logs, i: nat, room: nat)
    requires ServerInv(s, l, D, U) && i in s.streams
    ensures Logged(PullBody(s, i, room), l, D, U)
  {
    RoomLogged(s, l, D, U, i, room + 1, PullBody(s, i, room));
  }

  lemma EndLogged(s: Server, l: Limits, D: Logs, U: Logs, ev: ServerEvent)
    requires ServerInv(s, l, D, U) && Enabled(s, l, ev) && (ev.PublicCancel? || ev.Drop?)
    ensures Logged(Step(s, l, ev), l, D, U)
  {
    CancelLog(s, l, D, U, ev.i);
    PutNothing(D, s.streams[ev.i].channel);
  }

  lemma OwnStepLog(s: Server, l: Limits, D: Logs, U: Logs, ev: ServerEvent)
    requires ServerInv(s, l, D, U) && Enabled(s, l, ev) && !ev.ReceiveUp?
    ensures Logged(Step(s, l, ev), l, D, U)
  {
    if ev.Open? {
      OpenLog(s, l, D, U, ev.hasBody);
    } else if ev.AttachBody? {
      RoomLogged(s, l, D, U, ev.i, 1, Step(s, l, ev));
    } else if ev.PublicRead? {
      PullLogged(s, l, D, U, ev.i, s.streams[ev.i].room.value);
    } else if ev.PublicCancel? || ev.Drop? {
      EndLogged(s, l, D, U, ev);
    } else {
      PumpLogged(s, l, D, U, ev);
    }
  }
}
