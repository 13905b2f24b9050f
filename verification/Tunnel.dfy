/** HostcTunnel as the source writes it: handlers that update the tunnel's fields in place. Each is
    proved against its function in ServerSpec. A stream's record is a value in the streams map. */
module Tunnel {
  import opened Protocol
  import opened CreditSpec
  import opened TombstoneSpec
  import opened Frames
  import opened ServerSpec
  import opened CreditController
  import opened Wakeups
  import opened RoundRobin
  import opened Replacement

  /** whole is what a flush of stream i comes to when out has been sent and s is the state so far. */
  ghost predicate FlushGoal(whole: Reply, s: Server, i: nat, out: seq<Frame>) {
    i in s.streams && whole.server == FlushPending(s, i).server && whole.out == out + FlushPending(s, i).out
  }

  lemma FlushTurn(whole: Reply, s: Server, i: nat, out: seq<Frame>)
    requires FlushGoal(whole, s, i, out) && CanFlush(s, i)
    ensures var r := FlushHead(s, i);
            if i in r.server.streams then FlushGoal(whole, r.server, i, out + r.out)
            else whole.server == r.server && whole.out == out + r.out
  {
    var r := FlushHead(s, i);
    if i in r.server.streams {
      assert out + (r.out + FlushPending(r.server, i).out) == (out + r.out) + FlushPending(r.server, i).out;
    }
  }

  lemma FlushDone(whole: Reply, s: Server, i: nat, out: seq<Frame>)
    requires FlushGoal(whole, s, i, out) && !CanFlush(s, i)
    ensures whole.server == s && whole.out == out
  {
  }

  class HostcTunnel {
    const limits: Limits
    const credit: CreditController
    var expectedDataChannels: nat
    var nextStreamId: nat
    var nextChannelIndex: nat
    var pendingDataBytes: nat
    var streams: map<nat, ServerStream>
    var closedStreamIds: seq<nat>
    var pumps: map<nat, Pump>
    var publicBodies: map<nat, bytes>
    var orphanPumps: map<Orphan, Pump>
    var era: nat
    ghost var stale: map<nat, nat>
    ghost var lost: map<nat, nat>

    ghost function State(): Server
      reads this, credit
    {
      Server(expectedDataChannels, nextStreamId, nextChannelIndex, streams, closedStreamIds, pendingDataBytes,
             credit.Windows(), pumps, publicBodies, stale, lost)
    }

    ghost predicate Valid()
      reads this, credit
    {
      credit.limits == limits
    }

    /** A connection accepted with this many data channels. */
    constructor (l: Limits, dataChannels: nat)
      ensures Valid() && fresh(credit) && limits == l && State() == Init(dataChannels, l)
    {
      limits := l;
      credit := new CreditController(l);
      expectedDataChannels, nextStreamId, nextChannelIndex := dataChannels, 1, 0;
      pendingDataBytes, streams, closedStreamIds := 0, map[], [];
      pumps, publicBodies, stale, lost := map[], map[], map[], map[];
      orphanPumps, era := map[], 0;
      new;
      var _ := credit.ResetWindows(dataChannels);
    }

    method RememberClosedStream(i: nat)
      modifies this`closedStreamIds
      ensures closedStreamIds == Remember(old(closedStreamIds), i)
    {
      closedStreamIds := Forget(closedStreamIds, i) + [i];
      if |closedStreamIds| > MAX_REMEMBERED_CLOSED_STREAMS {
        closedStreamIds := closedStreamIds[1..];
      }
    }

    method Cleanup(i: nat)
      requires Valid()
      modifies this, credit
      ensures Valid() && State() == CleanupStream(old(State()), i)
    {
      if i !in streams {
        return;
      }
      var st := streams[i];
      streams := streams - {i};
      pendingDataBytes := Monus(pendingDataBytes, st.pendingBytes);
      lost := Bump(lost, st.channel, st.pendingBytes);
      var _ := credit.DeleteStream(i);
      RememberClosedStream(i);
    }

    /** None when no channel can be chosen; the source throws there. */
    method CreateStream(hasBody: bool) returns (i: Option<nat>, out: seq<Frame>)
      requires Valid()
      modifies this, credit
      ensures Valid()
      ensures i.Some? <==> ChooseNextDataChannel(old(nextChannelIndex), old(expectedDataChannels)).Ok?
      ensures i.None? ==> State() == old(State()) && out == []
      ensures i.Some? ==>
                && i.value == old(nextStreamId) && old(expectedDataChannels) > 0
                && var r := OpenStream(old(State()), limits, hasBody); State() == r.server && out == r.out
    {
      if nextChannelIndex > MAX_SAFE_INTEGER || !IsValidDataChannelCount(expectedDataChannels) {
        return None, [];
      }
      out := AddStream(hasBody, nextChannelIndex % expectedDataChannels);
      i := Some(nextStreamId - 1);
    }

    method AddStream(hasBody: bool, channelId: nat) returns (out: seq<Frame>)
      requires Valid() && expectedDataChannels > 0 && channelId == nextChannelIndex % expectedDataChannels
      modifies this, credit
      ensures Valid() && nextStreamId == old(nextStreamId) + 1
      ensures var r := OpenStream(old(State()), limits, hasBody); State() == r.server && out == r.out
    {
      var streamId := nextStreamId;
      RecordStream(hasBody, channelId);
      credit.SeedStream(streamId);
      out := [RequestStart(streamId, hasBody)];
    }

    method RecordStream(hasBody: bool, channelId: nat)
      modifies this
      ensures var i, s := old(nextStreamId), old(State());
              State() == s.(nextStreamId := i + 1, nextChannelIndex := s.nextChannelIndex + 1,
                            streams := s.streams[i := ServerStream(channelId, false, 0, None, None, [], 0)],
                            closed := Forget(s.closed, i), pumps := s.pumps[i := Pump(channelId, hasBody, 0, [], None, Active)])
    {
      var streamId := nextStreamId;
      nextChannelIndex := nextChannelIndex + 1;
      nextStreamId := nextStreamId + 1;
      streams := streams[streamId := ServerStream(channelId, false, 0, None, None, [], 0)];
      closedStreamIds := Forget(closedStreamIds, streamId);
      pumps := pumps[streamId := Pump(channelId, hasBody, 0, [], None, Active)];
    }

    method FinishStreamDirection(i: nat)
      requires Valid() && i in streams
      modifies this, credit
      ensures Valid() && State() == FinishDirection(old(State()), i)
    {
      var endSeq := streams[i].recvEnd;
      if endSeq.None? {
        return;
      }
      if endSeq.value != -1 && streams[i].recvNext <= endSeq.value {
        return;
      }
      Cleanup(i);
    }

    /** responseController.enqueue, then the credit frames. */
    method EnqueueToBody(i: nat, payload: bytes) returns (out: seq<Frame>)
      requires Valid() && i in streams && Deliverable(streams[i])
      modifies this`streams, this`publicBodies, credit
      ensures State() == Enqueued(old(State()), i, payload) && out == GrantFrames(i, ResponseBody, |payload|)
    {
      var st := streams[i];
      streams := streams[i := st.(room := Some(st.room.value - 1))];
      publicBodies := publicBodies[i := GetBytes(publicBodies, i) + payload];
      out := credit.GrantWindows(i, st.channel, ResponseBody, |payload|);
    }

    /** False when the public body is missing or full. */
    method Deliver(i: nat, payload: bytes) returns (delivered: bool, out: seq<Frame>)
      requires Valid() && i in streams
      modifies this, credit
      ensures Valid() && delivered == Deliverable(old(streams)[i])
      ensures !delivered ==> State() == old(State()) && out == []
      ensures delivered ==> var r := DeliverFrame(old(State()), i, payload); State() == r.server && out == r.out
    {
      var st := streams[i];
      if st.room.None? || st.room.value <= 0 {
        return false, [];
      }
      out := EnqueueToBody(i, payload);
      FinishStreamDirection(i);
      delivered := true;
    }

    /** One turn of the flush loop; false when the head cannot be delivered now. */
    method FlushOne(i: nat) returns (delivered: bool, out: seq<Frame>)
      requires Valid() && i in streams && |streams[i].pending| > 0
      modifies this, credit
      ensures Valid() && delivered == CanFlush(old(State()), i)
      ensures !delivered ==> State() == old(State()) && out == []
      ensures delivered ==> var r := FlushHead(old(State()), i); State() == r.server && out == r.out
    {
      var payload := streams[i].pending[0];
      delivered, out := Deliver(i, payload);
      if delivered && i in streams {
        var st := streams[i];
        streams := streams[i := st.(pending := st.pending[1..], pendingBytes := Monus(st.pendingBytes, |payload|))];
        pendingDataBytes := Monus(pendingDataBytes, |payload|);
      }
    }

    /** Delivers queued payloads in order until the body is full, the queue is empty or the stream ends. */
    method FlushPendingFrames(i: nat) returns (out: seq<Frame>)
      requires Valid() && i in streams
      modifies this, credit
      ensures Valid()
      ensures var r := FlushPending(old(State()), i); State() == r.server && out == r.out
    {
      out := [];
      ghost var whole := FlushPending(State(), i);
      while |streams[i].pending| > 0
        invariant Valid() && FlushGoal(whole, State(), i, out)
        decreases QueueLength(State(), i)
      {
        ghost var before := State();
        var delivered, frames := FlushOne(i);
        if !delivered {
          break;
        }
        FlushTurn(whole, before, i, out);
        out := out + frames;
        if i !in streams {
          return;
        }
      }
      FlushDone(whole, State(), i, out);
    }

    method EnqueuePendingFrame(i: nat, payload: bytes)
      requires Valid() && i in streams
      modifies this, credit
      ensures Valid() && State() == EnqueuePending(old(State()), limits, i, payload)
    {
      var st := streams[i];
      if st.pendingBytes + |payload| > limits.pendingDataBytes || pendingDataBytes + |payload| > limits.pendingDataBytes {
        lost := Bump(lost, st.channel, |payload|);
        Cleanup(i);
        return;
      }
      streams := streams[i := st.(pending := st.pending + [payload], pendingBytes := st.pendingBytes + |payload|)];
      pendingDataBytes := pendingDataBytes + |payload|;
    }

    method HandleResponseData(i: nat, c: nat, seqNo: nat, flags: nat, payload: bytes)
      returns (out: seq<Frame>, error: Option<ProtocolError>)
      requires Valid() && i in streams
      modifies this, credit
      ensures Valid()
      ensures var r := ReceiveData(old(State()), limits, i, c, seqNo, flags, payload);
              State() == r.server && out == r.out && error == r.error
    {
      out := [];
      var st := streams[i];
      if flags != FLAG_NONE {
        return [], Some(UnexpectedFlags);
      }
      if st.recvEnd.Some? && seqNo > st.recvEnd.value {
        return [], Some(DataAfterEnd);
      }
      var ok := credit.ConsumeWindows(i, c, ResponseBody, |payload|);
      if !ok {
        return [], Some(CreditViolation);
      }
      if seqNo != st.recvNext {
        return [], Some(SeqDiscontinuity);
      }
      streams := streams[i := st.(recvNext := st.recvNext + 1)];
      ghost var accepted := State();
      assert accepted == AcceptData(old(State()), i, c, |payload|);
      out := DeliverOrQueue(i, payload);
      error := None;
    }

    method DeliverOrQueue(i: nat, payload: bytes) returns (out: seq<Frame>)
      requires Valid() && i in streams
      modifies this, credit
      ensures Valid()
      ensures Deliverable(old(streams)[i]) ==> var r := DeliverFrame(old(State()), i, payload); State() == r.server && out == r.out
      ensures !Deliverable(old(streams)[i]) ==> State() == EnqueuePending(old(State()), limits, i, payload) && out == []
    {
      var delivered;
      delivered, out := Deliver(i, payload);
      if !delivered {
        EnqueuePendingFrame(i, payload);
      }
    }

    method HandleResponseEnd(i: nat, kind: DataKind, lastSeq: int) returns (error: Option<ProtocolError>)
      requires Valid() && i in streams
      modifies this, credit
      ensures Valid()
      ensures var r := ReceiveEnd(old(State()), i, old(streams)[i].channel, kind, lastSeq); State() == r.server && error == r.error
    {
      var st := streams[i];
      if kind != ResponseBody {
        return Some(EndKindMismatch);
      }
      if lastSeq != st.recvNext - 1 {
        return Some(LastSeqMismatch);
      }
      streams := streams[i := st.(recvEnd := Some(lastSeq))];
      FinishStreamDirection(i);
      error := None;
    }

    method DispatchFrame(c: nat, f: Frame) returns (out: seq<Frame>, error: Option<ProtocolError>)
      requires Valid() && !f.ChannelCredit? && f.streamId in streams && streams[f.streamId].channel == c
      modifies this, credit
      ensures Valid()
      ensures var r := DispatchStreamFrame(old(State()), limits, c, f);
              State() == r.server && out == r.out && error == if r.error.Some? then r.error else None
    {
      var i := f.streamId;
      out, error := [], None;
      match f {
        case ResponseStart(_, _) =>
          streams := streams[i := streams[i].(started := true)];
          FlushNeverFails(State(), i);
          out := FlushPendingFrames(i);
        case ResponseData(_, seqNo, flags, payload) =>
          out, error := HandleResponseData(i, c, seqNo, flags, payload);
        case ResponseEnd(_, kind, lastSeq) =>
          error := HandleResponseEnd(i, kind, lastSeq);
        case ResponseAbort(_) =>
          Cleanup(i);
        case _ =>
          error := Some(WrongDirection);
      }
    }

    method AbortAllStreams()
      requires Valid()
      modifies this, credit
      ensures Valid() && State() == AbortBelow(old(State()), old(nextStreamId))
    {
      var n := nextStreamId;
      for i := 0 to n
        invariant Valid() && State() == AbortBelow(old(State()), i) && nextStreamId == n
      {
        Cleanup(i);
      }
    }

    /** A new client connection takes over: nothing of the old one's streams, ids or credit is kept, but its
        running pumps run on. */
    method ReplaceClientConnection(dataChannels: nat)
      requires Valid()
      modifies this, credit
      ensures Valid() && State() == Restarted(old(State()), limits, dataChannels)
      ensures orphanPumps == old(orphanPumps) + Surviving(old(pumps), old(era)) && era == old(era) + 1
    {
      var survivors, next := orphanPumps + Surviving(pumps, era), era + 1;
      RestartServer(dataChannels);
      AdoptPumps(survivors, next);
    }

    method AdoptPumps(survivors: map<Orphan, Pump>, next: nat)
      modifies this`orphanPumps, this`era
      ensures orphanPumps == survivors && era == next && State() == old(State())
    {
      orphanPumps, era := survivors, next;
    }

    method RestartServer(dataChannels: nat)
      requires Valid()
      modifies this, credit
      ensures Valid() && State() == Restarted(old(State()), limits, dataChannels)
    {
      AbortAllStreams();
      expectedDataChannels, nextStreamId, nextChannelIndex := dataChannels, 1, 0;
      closedStreamIds := [];
      pumps, publicBodies, stale, lost := map[], map[], map[], map[];
      var _ := credit.ResetWindows(dataChannels);
    }

    method FailClientConnection()
      requires Valid()
      modifies this, credit
      ensures Valid() && State() == FailConnection(old(State()))
    {
      AbortAllStreams();
      expectedDataChannels := 0;
      var _ := credit.ResetWindows(0);
    }

    /** handleDataChannelMessage for a decoded frame from the current socket of channel c. */
    method HandleFrame(c: nat, f: Frame) returns (out: seq<Frame>, error: Option<ProtocolError>)
      requires Valid()
      modifies this, credit
      ensures Valid()
      ensures var r := Receive(old(State()), limits, c, f);
              && error == r.error
              && (error.None? ==> State() == r.server && out == r.out)
              && (error.Some? ==> State() == FailConnection(r.server) && out == [])
    {
      out, error := [], None;
      if f.RequestStart? || f.RequestData? || f.RequestEnd? || f.RequestAbort? {
        error := Some(WrongDirection);
      } else if f.ChannelCredit? {
        var _ := credit.ApplyChannelCredit(c, f.amount);
      } else if f.StreamCredit? {
        var _ := credit.ApplyStreamCredit(f.streamId, f.kind, f.amount);
      } else if f.streamId !in streams {
        if f.streamId in closedStreamIds || f.streamId < nextStreamId {
          stale := Bump(stale, c, DataBytes(f));
        } else {
          error := Some(UnknownStream);
        }
      } else if streams[f.streamId].channel != c {
        error := Some(WrongChannel);
      } else {
        out, error := DispatchFrame(c, f);
      }
      if error.Some? {
        FailClientConnection();
        out := [];
      }
    }

    /** One turn of the pump's send loop: look for credit under this ticket, then send and charge. */
    method SendPumpChunk(i: nat, ticket: nat) returns (verdict: Verdict, out: seq<Frame>)
      requires Valid() && i in pumps && pumps[i].rest.Some?
      modifies this, credit
      ensures Valid()
      ensures verdict == Unavailable <==> i !in old(streams)
      ensures verdict == Ready <==>
                i in old(streams) && HasOutbound(old(credit.Windows()), i, old(pumps)[i].channel, RequestBody,
                                                 |Chunk(old(pumps)[i].rest.value, limits.maxFrameBytes)|)
      ensures verdict == Ready ==> var r := PumpChunk(old(State()), limits, i); State() == r.server && out == r.out
      ensures verdict != Ready ==> State() == old(State()) && out == []
    {
      var p := pumps[i];
      var chunk := Chunk(p.rest.value, limits.maxFrameBytes);
      verdict := credit.LookForCredit(Parking(ticket, Waiter(i, p.channel, RequestBody, |chunk|)), i in streams);
      if verdict != Ready {
        return verdict, [];
      }
      var sent;
      out, sent := PostPumpChunk(i);
      assert sent;
    }

    /** The second half of such a turn, when others may have run since the look: the frame goes out first,
        and ok is false when the decrement throws. */
    method PostPumpChunk(i: nat) returns (out: seq<Frame>, ok: bool)
      requires Valid() && i in pumps && pumps[i].rest.Some?
      modifies this, credit
      ensures Valid()
      ensures var p := old(pumps)[i]; var chunk := Chunk(p.rest.value, limits.maxFrameBytes);
              var charged := DecrementOutbound(old(credit.Windows()), i, p.channel, RequestBody, |chunk|);
              && out == [RequestData(i, p.sendNext, FLAG_NONE, chunk)] && ok == charged.ok
              && State() == old(State()).(
                   credit := charged.credit,
                   pumps := old(pumps)[i := p.(sendNext := p.sendNext + 1,
                                               rest := if ok then AfterChunk(p.rest.value, limits.maxFrameBytes) else p.rest)])
    {
      var p := pumps[i];
      var chunk := Chunk(p.rest.value, limits.maxFrameBytes);
      out := [RequestData(i, p.sendNext, FLAG_NONE, chunk)];
      pumps := pumps[i := p.(sendNext := p.sendNext + 1)];
      ok := credit.DecrementWindows(i, p.channel, RequestBody, |chunk|);
      if ok {
        pumps := pumps[i := pumps[i].(rest := AfterChunk(p.rest.value, limits.maxFrameBytes))];
      }
    }

    /** The public client went away: drop the stream and tell the local side. */
    method AbortPublicStream(i: nat) returns (out: seq<Frame>)
      requires Valid() && i in streams
      modifies this, credit
      ensures Valid()
      ensures var r := CancelPublic(old(State()), i); State() == r.server && out == r.out
    {
      Cleanup(i);
      out := [RequestAbort(i)];
    }

    /** The public response is constructed: its body takes one chunk, and what waits is flushed into it. */
    method AttachPublicBody(i: nat) returns (out: seq<Frame>)
      requires Valid() && i in streams && streams[i].started && streams[i].room.None?
      modifies this, credit
      ensures Valid()
      ensures var r := Step(old(State()), limits, AttachBody(i)); State() == r.server && out == r.out
    {
      var st := streams[i];
      streams := streams[i := st.(room := Some(1))];
      out := FlushPendingFrames(i);
    }

    /** The public side reads a chunk, which makes room and runs a flush. */
    method PullPublicBody(i: nat) returns (out: seq<Frame>)
      requires Valid() && i in streams && streams[i].room.Some?
      modifies this, credit
      ensures Valid()
      ensures var r := Step(old(State()), limits, PublicRead(i)); State() == r.server && out == r.out
    {
      var st := streams[i];
      streams := streams[i := st.(room := Some(st.room.value + 1))];
      out := FlushPendingFrames(i);
    }
  }
}
