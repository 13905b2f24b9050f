/** What a frame, or a read of the public body, comes to at the server, said without the functions that do it.
    The client may have sent anything before. */
module Outcomes {
  import opened Protocol
  import opened CreditSpec
  import opened Frames
  import opened ServerSpec
  import opened ServerSafety
  import opened ServerOps
  import opened ServerRuns

  predicate OnlyCredit(fs: seq<Frame>) {
    forall k :: 0 <= k < |fs| ==> fs[k].StreamCredit? || fs[k].ChannelCredit?
  }

  lemma {:induction false} FlushSendsCredit(s: Server, i: nat)
    requires i in s.streams
    ensures OnlyCredit(FlushPending(s, i).out)
    decreases QueueLength(s, i)
  {
    if CanFlush(s, i) && i in FlushHead(s, i).server.streams {
      FlushSendsCredit(FlushHead(s, i).server, i);
    }
  }

  lemma DataSendsCredit(s: Server, l: Limits, i: nat, c: nat, seqNo: nat, flags: nat, payload: bytes)
    requires i in s.streams
    ensures OnlyCredit(ReceiveData(s, l, i, c, seqNo, flags, payload).out)
  {
  }

  /** Whatever arrives, the server answers with nothing but credit. */
  lemma ReceiveSendsCredit(s: Server, l: Limits, c: nat, f: Frame, r: Reply)
    requires r == Receive(s, l, c, f)
    ensures OnlyCredit(r.out)
  {
    if f.ResponseStart? && f.streamId in s.streams {
      FlushSendsCredit(MarkStarted(s, f.streamId), f.streamId);
    } else if f.ResponseData? && f.streamId in s.streams {
      DataSendsCredit(s, l, f.streamId, c, f.seqNo, f.flags, f.payload);
    }
  }

  // ----- which frames fail the connection -----

  /** The verdict on a data frame of a live stream: the first check that fails. */
  function DataVerdict(s: Server, c: nat, f: Frame): Option<ProtocolError>
    requires f.ResponseData? && f.streamId in s.streams
  {
    var n := |f.payload|;
    if f.flags != 0 then Some(UnexpectedFlags)
    else if n > Get(s.credit.inStream, Key(f.streamId, ResponseBody)) || n > Get(s.credit.inChannel, c) then Some(CreditViolation)
    else if f.seqNo != s.streams[f.streamId].recvNext then Some(SeqDiscontinuity)
    else None
  }

  function EndVerdict(s: Server, f: Frame): Option<ProtocolError>
    requires f.ResponseEnd? && f.streamId in s.streams
  {
    if f.kind != ResponseBody then Some(EndKindMismatch)
    else if f.lastSeq + 1 != s.streams[f.streamId].recvNext then Some(LastSeqMismatch)
    else None
  }

  lemma DispatchVerdict(s: Server, l: Limits, c: nat, f: Frame)
    requires IsResponse(f) && f.streamId in s.streams && s.streams[f.streamId].recvEnd == None
    ensures DispatchStreamFrame(s, l, c, f).error ==
            if f.ResponseData? then DataVerdict(s, c, f) else if f.ResponseEnd? then EndVerdict(s, f) else None
  {
    if f.ResponseStart? {
      FlushNeverFails(MarkStarted(s, f.streamId), f.streamId);
    }
  }

  lemma LiveVerdict(s: Server, l: Limits, c: nat, f: Frame)
    requires IsResponse(f) && f.streamId in s.streams && s.streams[f.streamId].recvEnd == None
    ensures Receive(s, l, c, f).error ==
            if s.streams[f.streamId].channel != c then Some(WrongChannel)
            else if f.ResponseData? then DataVerdict(s, c, f) else if f.ResponseEnd? then EndVerdict(s, f) else None
  {
    if s.streams[f.streamId].channel == c {
      DispatchVerdict(s, l, c, f);
    }
  }

  /** In every reached state, whatever the client sent before: which frame fails the connection, and with what. */
  lemma VerdictExactly(channels: nat, l: Limits, evs: seq<ServerEvent>, t: Server, c: nat, f: Frame)
    requires ServerReached(channels, l, evs, t)
    ensures Receive(t, l, c, f).error ==
            if f.ChannelCredit? || f.StreamCredit? then None
            else if !IsResponse(f) then Some(WrongDirection)
            else if f.streamId >= t.nextStreamId then Some(UnknownStream)
            else if f.streamId !in t.streams then None
            else if t.streams[f.streamId].channel != c then Some(WrongChannel)
            else if f.ResponseData? then DataVerdict(t, c, f)
            else if f.ResponseEnd? then EndVerdict(t, f)
            else None
  {
    if IsResponse(f) {
      UnknownExactlyAboveNextId(channels, l, evs, t, c, f);
      if f.streamId in t.streams {
        ServerReachedSafe(channels, l, evs, t);
        StreamBooks(t, l, f.streamId);
        LiveVerdict(t, l, c, f);
      }
    }
  }

  // ----- what becomes of accepted data -----

  /** The credit frames for payloads handed to the public body; none for an empty one. */
  function CreditFor(i: nat, payloads: seq<bytes>): seq<Frame> {
    if payloads == [] then []
    else
      (if payloads[0] == [] then [] else [StreamCredit(i, ResponseBody, |payloads[0]|), ChannelCredit(|payloads[0]|)])
      + CreditFor(i, payloads[1..])
  }

  lemma CreditForOne(i: nat, payload: bytes)
    ensures CreditFor(i, [payload]) == GrantFrames(i, ResponseBody, |payload|)
  {
    assert [payload][1..] == [];
    assert CreditFor(i, []) == [];
    assert GrantFrames(i, ResponseBody, |payload|) + [] == GrantFrames(i, ResponseBody, |payload|);
  }

  lemma QueuedOutcome(s: Server, l: Limits, i: nat, c: nat, f: Frame)
    requires i in s.streams && f.ResponseData? && ReceiveData(s, l, i, c, f.seqNo, f.flags, f.payload).error == None
    requires s.streams[i].room.None? || s.streams[i].room.value == 0
    ensures var r := ReceiveData(s, l, i, c, f.seqNo, f.flags, f.payload); var n := |f.payload|;
            && r.out == [] && GetBytes(r.server.delivered, i) == GetBytes(s.delivered, i)
            && (i in r.server.streams <==>
                  s.streams[i].pendingBytes + n <= l.pendingDataBytes && s.pendingDataBytes + n <= l.pendingDataBytes)
            && (i in r.server.streams ==>
                  && r.server.streams[i].pending == s.streams[i].pending + [f.payload]
                  && r.server.streams[i].pendingBytes == s.streams[i].pendingBytes + n
                  && r.server.pendingDataBytes == s.pendingDataBytes + n
                  && r.server.streams[i].recvNext == s.streams[i].recvNext + 1)
  {
  }

  lemma DeliveredOutcome(s: Server, l: Limits, i: nat, c: nat, f: Frame)
    requires i in s.streams && f.ResponseData? && ReceiveData(s, l, i, c, f.seqNo, f.flags, f.payload).error == None
    requires s.streams[i].recvEnd == None && s.streams[i].room.Some? && s.streams[i].room.value > 0
    ensures var r := ReceiveData(s, l, i, c, f.seqNo, f.flags, f.payload);
            && i in r.server.streams && r.out == CreditFor(i, [f.payload])
            && GetBytes(r.server.delivered, i) == GetBytes(s.delivered, i) + f.payload
            && r.server.streams[i] == s.streams[i].(recvNext := s.streams[i].recvNext + 1, room := Some(s.streams[i].room.value - 1))
            && r.server.pendingDataBytes == s.pendingDataBytes
  {
    CreditForOne(i, f.payload);
  }

  lemma AcceptedIsData(s: Server, l: Limits, c: nat, f: Frame)
    requires f.ResponseData? && f.streamId in s.streams && s.streams[f.streamId].channel == c
    ensures Receive(s, l, c, f) == ReceiveData(s, l, f.streamId, c, f.seqNo, f.flags, f.payload)
  {
  }

  /** r is what accepted data should come to: it is handed on at once, with its credit, if and only if the public body
      exists and has room. Otherwise it is queued last, and the stream lives on if and only if neither the stream
      nor the tunnel passes the limit. */
  ghost predicate DataOutcome(s: Server, l: Limits, f: Frame, r: Reply)
    requires f.ResponseData? && f.streamId in s.streams
  {
    var i := f.streamId;
    var n, st := |f.payload|, s.streams[i];
    var room := st.room.Some? && st.room.value > 0;
    && (i in r.server.streams <==>
          room || (st.pendingBytes + n <= l.pendingDataBytes && s.pendingDataBytes + n <= l.pendingDataBytes))
    && (room ==>
          && GetBytes(r.server.delivered, i) == GetBytes(s.delivered, i) + f.payload && r.out == CreditFor(i, [f.payload])
          && r.server.streams[i].pending == st.pending == [] && r.server.streams[i].room == Some(st.room.value - 1))
    && (!room ==> GetBytes(r.server.delivered, i) == GetBytes(s.delivered, i) && r.out == [])
    && (!room && i in r.server.streams ==>
          r.server.streams[i].pending == st.pending + [f.payload] && r.server.streams[i].room == st.room)
    && (i in r.server.streams ==> r.server.streams[i].recvNext == st.recvNext + 1)
  }

  lemma BothOutcomes(s: Server, l: Limits, c: nat, f: Frame, r: Reply)
    requires f.ResponseData? && f.streamId in s.streams && r == ReceiveData(s, l, f.streamId, c, f.seqNo, f.flags, f.payload)
    requires r.error == None && s.streams[f.streamId].recvEnd == None
    requires s.streams[f.streamId].room.Some? && s.streams[f.streamId].room.value > 0 ==> s.streams[f.streamId].pending == []
    ensures DataOutcome(s, l, f, r)
  {
    var i := f.streamId;
    if s.streams[i].room.Some? && s.streams[i].room.value > 0 {
      DeliveredOutcome(s, l, i, c, f);
    } else {
      QueuedOutcome(s, l, i, c, f);
    }
  }

  /** In every reached state, whatever the client sent before, accepted data of a live stream comes to that. */
  lemma AcceptedDataOutcome(channels: nat, l: Limits, evs: seq<ServerEvent>, t: Server, c: nat, f: Frame)
    requires ServerReached(channels, l, evs, t) && f.ResponseData? && f.streamId in t.streams && t.streams[f.streamId].channel == c
    requires Receive(t, l, c, f).error == None
    ensures DataOutcome(t, l, f, Receive(t, l, c, f))
  {
    ServerReachedSafe(channels, l, evs, t);
    StreamBooks(t, l, f.streamId);
    AcceptedIsData(t, l, c, f);
    QueueIsBlocked(channels, l, evs, t, f.streamId);
    BothOutcomes(t, l, c, f, Receive(t, l, c, f));
  }

  // ----- what a read, or a new body, releases -----

  /** The first m payloads of stream i went to the body, and the rest is as it was. */
  ghost predicate Released(s: Server, r: Reply, i: nat, m: nat, room: nat) {
    && i in s.streams && i in r.server.streams && m <= |s.streams[i].pending|
    && GetBytes(r.server.delivered, i) == GetBytes(s.delivered, i) + Concat(s.streams[i].pending[..m])
    && r.server.streams[i].pending == s.streams[i].pending[m..]
    && r.server.streams[i].room == Some(room)
    && r.out == CreditFor(i, s.streams[i].pending[..m])
    && (forall j :: j != i ==> (j in r.server.streams <==> j in s.streams) && (j in s.streams ==> r.server.streams[j] == s.streams[j]))
    && r.error == None
  }

  lemma HeadReleased(s: Server, i: nat, room: nat)
    requires CanFlush(s, i) && s.streams[i].recvEnd == None && s.streams[i].room == Some(room)
    ensures Released(s, FlushHead(s, i), i, 1, room - 1) && FlushHead(s, i).server.streams[i].recvEnd == None
    ensures FlushHead(s, i).channel == s.streams[i].channel
  {
    CreditForOne(i, s.streams[i].pending[0]);
    var head := s.streams[i].pending[..1];
    assert head == [s.streams[i].pending[0]];
    assert head[..0] == [];
    assert Concat(head) == [] + s.streams[i].pending[0] == s.streams[i].pending[0];
  }

  lemma CreditForMore(i: nat, payloads: seq<bytes>)
    requires payloads != []
    ensures CreditFor(i, payloads) == CreditFor(i, payloads[..1]) + CreditFor(i, payloads[1..])
  {
    assert payloads[..1] == [payloads[0]];
    CreditForOne(i, payloads[0]);
  }

  lemma ReleasedMore(s: Server, r: Reply, r': Reply, i: nat, m: nat, room: nat)
    requires Released(s, r, i, 1, room + m) && Released(r.server, r', i, m, room)
    ensures Released(s, Reply(r'.server, r.channel, r.out + r'.out, None), i, m + 1, room)
  {
    var pending := s.streams[i].pending;
    assert pending[1..][..m] == pending[1..m + 1] == pending[..m + 1][1..];
    assert pending[..m + 1][..1] == pending[..1];
    CreditForMore(i, pending[..m + 1]);
    ConcatHead(pending[..m + 1]);
    var head: seq<bytes> := pending[..1];
    ConcatHead(head);
    assert Concat(head[1..]) == [];
  }

  /** The two cases of a flush. */
  lemma FlushCases(s: Server, i: nat, r: Reply)
    requires i in s.streams && r == FlushPending(s, i)
    ensures !CanFlush(s, i) ==> r == Reply(s, s.streams[i].channel, [], None)
    ensures CanFlush(s, i) && i in FlushHead(s, i).server.streams ==>
              var h, r' := FlushHead(s, i), FlushPending(FlushHead(s, i).server, i);
              r == Reply(r'.server, h.channel, h.out + r'.out, None)
  {
  }

  lemma NothingReleased(s: Server, i: nat, room: nat, r: Reply)
    requires i in s.streams && s.streams[i].room == Some(room) && r == Reply(s, s.streams[i].channel, [], None)
    ensures Released(s, r, i, 0, room)
  {
    assert s.streams[i].pending[..0] == [];
    assert GetBytes(s.delivered, i) + [] == GetBytes(s.delivered, i);
  }

  /** r is what m turns of the flush loop come to. */
  ghost predicate Turns(s: Server, i: nat, m: nat, r: Reply)
    decreases m
  {
    && i in s.streams
    && if m == 0 then r == Reply(s, s.streams[i].channel, [], None)
       else CanFlush(s, i) && exists r': Reply :: Turns(FlushHead(s, i).server, i, m - 1, r') && Joined(FlushHead(s, i), r', r)
  }

  predicate Joined(h: Reply, r': Reply, r: Reply) {
    r == Reply(r'.server, h.channel, h.out + r'.out, None)
  }

  lemma HeadShrinks(s: Server, i: nat, room: nat)
    requires CanFlush(s, i) && s.streams[i].recvEnd == None && s.streams[i].room == Some(room)
    ensures var u := FlushHead(s, i).server;
            && i in u.streams && u.streams[i].recvEnd == None && u.streams[i].room == Some(room - 1)
            && u.streams[i].pending == s.streams[i].pending[1..]
  {
  }

  lemma {:induction false} FlushTurns(s: Server, i: nat, room: nat, m: nat, r: Reply)
    requires i in s.streams && s.streams[i].recvEnd == None && s.streams[i].room == Some(room) && r == FlushPending(s, i)
    requires m == Min(room, |s.streams[i].pending|)
    ensures Turns(s, i, m, r)
    decreases m
  {
    FlushCases(s, i, r);
    if m > 0 {
      HeadShrinks(s, i, room);
      var h := FlushHead(s, i);
      var r' := FlushPending(h.server, i);
      FlushTurns(h.server, i, room - 1, m - 1, r');
      assert Joined(h, r', r);
    }
  }

  lemma OneMoreTurn(s: Server, i: nat, room: nat, m: nat, r': Reply, r: Reply)
    requires CanFlush(s, i) && s.streams[i].recvEnd == None && s.streams[i].room == Some(room) && 0 < m <= room
    requires Released(FlushHead(s, i).server, r', i, m - 1, room - m) && Joined(FlushHead(s, i), r', r)
    ensures Released(s, r, i, m, room - m)
  {
    HeadReleased(s, i, room);
    ReleasedMore(s, FlushHead(s, i), r', i, m - 1, room - m);
  }

  lemma {:induction false} TurnsRelease(s: Server, i: nat, room: nat, m: nat, r: Reply)
    requires Turns(s, i, m, r) && s.streams[i].recvEnd == None && s.streams[i].room == Some(room) && m <= room
    ensures Released(s, r, i, m, room - m)
    decreases m
  {
    if m > 0 {
      HeadShrinks(s, i, room);
      var u := FlushHead(s, i).server;
      var r': Reply :| Turns(u, i, m - 1, r') && Joined(FlushHead(s, i), r', r);
      TurnsRelease(u, i, room - 1, m - 1, r');
      OneMoreTurn(s, i, room, m, r', r);
    } else {
      NothingReleased(s, i, room, r);
    }
  }

  /** Only the room of stream i differs between s and u. */
  ghost predicate OnlyRoom(s: Server, u: Server, i: nat, room: nat) {
    && i in s.streams && i in u.streams && u.delivered == s.delivered
    && u.streams[i].pending == s.streams[i].pending && u.streams[i].recvEnd == s.streams[i].recvEnd && u.streams[i].room == Some(room)
    && forall j :: j != i ==> (j in u.streams <==> j in s.streams) && (j in s.streams ==> u.streams[j] == s.streams[j])
  }

  lemma RoomOnly(s: Server, i: nat, room: nat)
    requires i in s.streams
    ensures OnlyRoom(s, WithRoom(s, i, room), i, room)
  {
  }

  lemma ReleasedAfterTouch(s: Server, u: Server, r: Reply, i: nat, m: nat, room: nat, before: nat)
    requires OnlyRoom(s, u, i, before) && Released(u, r, i, m, room)
    ensures Released(s, r, i, m, room)
  {
  }

  lemma RoomReleases(s: Server, u: Server, i: nat, room: nat, m: nat, r: Reply)
    requires OnlyRoom(s, u, i, room) && s.streams[i].recvEnd == None && m <= room && Turns(u, i, m, r)
    ensures Released(s, r, i, m, room - m)
  {
    TurnsRelease(u, i, room, m, r);
    ReleasedAfterTouch(s, u, r, i, m, room - m, room);
  }

  lemma RoomTurns(s: Server, i: nat, room: nat, r: Reply)
    requires i in s.streams && s.streams[i].recvEnd == None && r == FlushPending(WithRoom(s, i, room), i)
    ensures Turns(WithRoom(s, i, room), i, Min(room, |s.streams[i].pending|), r)
  {
    FlushTurns(WithRoom(s, i, room), i, room, Min(room, |s.streams[i].pending|), r);
  }

  lemma PullReleases(s: Server, i: nat, room: nat, r: Reply)
    requires i in s.streams && s.streams[i].recvEnd == None && r == PullBody(s, i, room)
    ensures var m := Min(room + 1, |s.streams[i].pending|); Released(s, r, i, m, room + 1 - m)
  {
    RoomTurns(s, i, room + 1, r);
    RoomOnly(s, i, room + 1);
    RoomReleases(s, WithRoom(s, i, room + 1), i, room + 1, Min(room + 1, |s.streams[i].pending|), r);
  }

  lemma FirstRoomReleases(s: Server, i: nat, r: Reply)
    requires i in s.streams && s.streams[i].recvEnd == None && r == FlushPending(WithRoom(s, i, 1), i)
    ensures var m := Min(1, |s.streams[i].pending|); Released(s, r, i, m, 1 - m)
  {
    RoomTurns(s, i, 1, r);
    RoomOnly(s, i, 1);
    RoomReleases(s, WithRoom(s, i, 1), i, 1, Min(1, |s.streams[i].pending|), r);
  }

  /** A read of the public body makes room for one more payload, and as many queued payloads as now fit are handed
      on in order, each with its credit. */
  lemma ReadReleases(channels: nat, l: Limits, evs: seq<ServerEvent>, t: Server, i: nat, k: nat)
    requires ServerReached(channels, l, evs, t) && i in t.streams && t.streams[i].room == Some(k)
    ensures Enabled(t, l, PublicRead(i))
    ensures var m := Min(k + 1, |t.streams[i].pending|); Released(t, Step(t, l, PublicRead(i)), i, m, k + 1 - m)
  {
    ServerReachedSafe(channels, l, evs, t);
    StreamBooks(t, l, i);
    PullReleases(t, i, k, Step(t, l, PublicRead(i)));
  }

  /** A new public body takes one payload, the first queued if there is one. */
  lemma AttachReleases(channels: nat, l: Limits, evs: seq<ServerEvent>, t: Server, i: nat)
    requires ServerReached(channels, l, evs, t) && i in t.streams && t.streams[i].started && t.streams[i].room == None
    ensures Enabled(t, l, AttachBody(i))
    ensures var m := Min(1, |t.streams[i].pending|); Released(t, Step(t, l, AttachBody(i)), i, m, 1 - m)
  {
    ServerReachedSafe(channels, l, evs, t);
    StreamBooks(t, l, i);
    FirstRoomReleases(t, i, Step(t, l, AttachBody(i)));
  }

  /** RESPONSE_START lets the public body be made, and changes nothing else of a stream that has none. */
  lemma StartAllowsBody(channels: nat, l: Limits, evs: seq<ServerEvent>, t: Server, c: nat, hasBody: bool, i: nat)
    requires ServerReached(channels, l, evs, t) && i in t.streams && t.streams[i].channel == c && t.streams[i].room == None
    ensures var r := Receive(t, l, c, ResponseStart(i, hasBody));
            && r.error == None && r.out == [] && i in r.server.streams
            && r.server.streams[i] == t.streams[i].(started := true) && Enabled(r.server, l, AttachBody(i))
  {
    assert !CanFlush(MarkStarted(t, i), i);
  }

  /** RESPONSE_ABORT, and an accepted RESPONSE_END, leave no such stream and hand on nothing more. */
  lemma LastFrameRemoves(channels: nat, l: Limits, evs: seq<ServerEvent>, t: Server, c: nat, f: Frame)
    requires ServerReached(channels, l, evs, t) && (f.ResponseAbort? || f.ResponseEnd?) && f.streamId in t.streams
    requires t.streams[f.streamId].channel == c && Receive(t, l, c, f).error == None
    ensures var r := Receive(t, l, c, f); var i := f.streamId;
            && i !in r.server.streams && r.out == [] && r.server.delivered == t.delivered
            && forall j :: j != i ==> (j in r.server.streams <==> j in t.streams) && (j in t.streams ==> r.server.streams[j] == t.streams[j])
  {
    if f.ResponseEnd? {
      EndRemoves(t, f.streamId, c, f.kind, f.lastSeq);
    }
  }

  lemma CleanupOutcome(s: Server, i: nat, s': Server)
    requires i in s.streams && s' == CleanupStream(s, i) && s.streams[i].pendingBytes <= s.pendingDataBytes
    ensures i !in s'.streams && i in s'.closed && s'.pendingDataBytes == s.pendingDataBytes - s.streams[i].pendingBytes
    ensures forall j :: j != i ==> (j in s'.streams <==> j in s.streams) && (j in s.streams ==> s'.streams[j] == s.streams[j])
    ensures s'.delivered == s.delivered && s'.pumps == s.pumps
    ensures s'.credit.outChannel == s.credit.outChannel && s'.credit.inChannel == s.credit.inChannel
  {
  }

  lemma HeldWithin(s: Server, l: Limits, i: nat)
    requires CoreSafe(s, l) && i in s.streams
    ensures s.streams[i].pendingBytes <= s.pendingDataBytes
  {
    HeldSumChange(s.streams, s.streams, None, s.nextStreamId, i);
  }

  /** When the public side goes away, the pump fails, or the stream is dropped, a live stream is gone at once with
      all that was queued for it, and no other stream, window of a channel, or delivered byte is touched. */
  lemma RemovalOutcome(channels: nat, l: Limits, evs: seq<ServerEvent>, t: Server, ev: ServerEvent, i: nat)
    requires ServerReached(channels, l, evs, t) && i in t.streams && Enabled(t, l, ev)
    requires ev == PublicCancel(i) || ev == Drop(i) || ev == PumpFail(i)
    ensures var t' := Step(t, l, ev).server;
            && i !in t'.streams && i in t'.closed && t'.pendingDataBytes == t.pendingDataBytes - t.streams[i].pendingBytes
            && (forall j :: j != i ==> (j in t'.streams <==> j in t.streams) && (j in t.streams ==> t'.streams[j] == t.streams[j]))
            && t'.delivered == t.delivered
            && t'.credit.outChannel == t.credit.outChannel && t'.credit.inChannel == t.credit.inChannel
  {
    ServerReachedSafe(channels, l, evs, t);
    HeldWithin(t, l, i);
    var s := if ev.PumpFail? then t.(pumps := t.pumps[i := t.pumps[i].(status := Failed)]) else t;
    CleanupOutcome(s, i, Step(t, l, ev).server);
  }
}
