/** Whole runs of the server against an arbitrary client: any frames, on any channel, in any order. */
module ServerRuns {
  import opened Protocol
  import opened CreditSpec
  import opened Frames
  import opened ServerSpec
  import opened ServerSafety
  import opened ServerOps
  import opened ServerTheorems
  import opened Clamps

  /** The state after evs; None if some event was not possible or failed the connection. */
  function ServerAfter(s: Server, l: Limits, evs: seq<ServerEvent>): Option<Server> {
    if evs == [] then Some(s)
    else
      var n := |evs| - 1;
      match ServerAfter(s, l, evs[..n])
      case None => None
      case Some(t) =>
        if Enabled(t, l, evs[n]) && Step(t, l, evs[n]).error == None then Some(Step(t, l, evs[n]).server) else None
  }

  ghost predicate ServerReached(channels: nat, l: Limits, evs: seq<ServerEvent>, t: Server) {
    IsTunnelLimits(l) && IsValidDataChannelCount(channels) && ServerAfter(Init(channels, l), l, evs) == Some(t)
  }

  lemma {:induction false} ServerReachedSafe(channels: nat, l: Limits, evs: seq<ServerEvent>, t: Server)
    requires ServerReached(channels, l, evs, t)
    ensures ServerSafe(t, l)
    decreases |evs|
  {
    if evs == [] {
      InitSafe(channels, l);
    } else {
      var n := |evs| - 1;
      var s := ServerAfter(Init(channels, l), l, evs[..n]).value;
      ServerReachedSafe(channels, l, evs[..n], s);
      StepSafe(s, l, evs[n]);
    }
  }

  /** The unknown-stream failure is taken exactly for stream ids that were never issued, however many
      tombstones have been evicted. */
  lemma UnknownExactlyAboveNextId(channels: nat, l: Limits, evs: seq<ServerEvent>, t: Server, c: nat, f: Frame)
    requires ServerReached(channels, l, evs, t) && IsResponse(f)
    ensures Receive(t, l, c, f).error == Some(UnknownStream) <==> f.streamId >= t.nextStreamId
    ensures f.streamId < t.nextStreamId && f.streamId !in t.streams ==>
              Receive(t, l, c, f) == Reply(t.(stale := Bump(t.stale, c, DataBytes(f))), c, [], None)
  {
    ServerReachedSafe(channels, l, evs, t);
    if f.streamId in t.streams {
      LiveNeverUnknown(t, l, c, f);
    } else {
      NotLiveIsStale(t, l, c, f);
    }
  }

  lemma LiveNeverUnknown(s: Server, l: Limits, c: nat, f: Frame)
    requires IdsSafe(s) && IsResponse(f) && f.streamId in s.streams
    ensures Receive(s, l, c, f).error != Some(UnknownStream) && f.streamId < s.nextStreamId
  {
    if s.streams[f.streamId].channel == c {
      NeverUnknown(s, l, c, f);
    }
  }

  lemma NotLiveIsStale(s: Server, l: Limits, c: nat, f: Frame)
    requires IdsSafe(s) && IsResponse(f) && f.streamId !in s.streams
    ensures Receive(s, l, c, f) ==
            if f.streamId < s.nextStreamId then Reply(s.(stale := Bump(s.stale, c, DataBytes(f))), c, [], None)
            else Reply(s, c, [], Some(UnknownStream))
  {
  }

  lemma NeverUnknown(s: Server, l: Limits, c: nat, f: Frame)
    requires !f.ChannelCredit? && f.streamId in s.streams
    ensures DispatchStreamFrame(s, l, c, f).error != Some(UnknownStream)
  {
    if f.ResponseStart? {
      FlushNeverFails(MarkStarted(s, f.streamId), f.streamId);
    }
  }

  /** Stream ids are issued in increasing order from 1 and never while live, remembered or reused. */
  lemma OpenIssuesFreshId(channels: nat, l: Limits, evs: seq<ServerEvent>, t: Server, hasBody: bool)
    requires ServerReached(channels, l, evs, t)
    ensures t.dataChannels > 0 && t.nextStreamId >= 1 && t.nextStreamId !in t.streams && t.nextStreamId !in t.closed && t.nextStreamId !in t.pumps
    ensures var r := OpenStream(t, l, hasBody);
            r.out == [RequestStart(t.nextStreamId, hasBody)] && r.server.nextStreamId == t.nextStreamId + 1
            && t.nextStreamId in r.server.streams && r.server.streams[t.nextStreamId].channel == r.channel
    ensures forall i :: (i in t.streams || i in t.closed) ==> 1 <= i < t.nextStreamId
  {
    ServerReachedSafe(channels, l, evs, t);
  }

  /** The tunnel-wide count of waiting bytes is the sum over live streams and stays within the limit. */
  lemma BufferAccounting(channels: nat, l: Limits, evs: seq<ServerEvent>, t: Server, i: nat)
    requires ServerReached(channels, l, evs, t)
    ensures t.pendingDataBytes == HeldSum(t.streams, None, t.nextStreamId) <= l.pendingDataBytes
    ensures i in t.streams ==>
              && t.streams[i].pendingBytes == |Concat(t.streams[i].pending)|
              && t.pendingDataBytes - t.streams[i].pendingBytes >= 0
              && CleanupStream(t, i).pendingDataBytes == t.pendingDataBytes - t.streams[i].pendingBytes
  {
    ServerReachedSafe(channels, l, evs, t);
    if i in t.streams {
      StreamBooks(t, l, i);
    }
  }

  /** No clamp at zero ever acts: every flush that a step runs, turn by turn, and every cleanup, also of a
      queue that overflows, come to the same with exact subtraction. */
  lemma ClampsNeverAct(channels: nat, l: Limits, evs: seq<ServerEvent>, t: Server, i: nat, room: nat, c: nat, n: nat)
    requires ServerReached(channels, l, evs, t) && i in t.streams
    ensures ExactFlush(MarkStarted(t, i), i) == Some(FlushPending(MarkStarted(t, i), i))
    ensures ExactFlush(WithRoom(t, i, room), i) == Some(FlushPending(WithRoom(t, i, room), i))
    ensures ExactCleanup(t, i) == Some(CleanupStream(t, i))
    ensures var u := AcceptData(t, i, c, n); var v := u.(lost := Bump(u.lost, c, n)); ExactCleanup(v, i) == Some(CleanupStream(v, i))
  {
    ServerReachedSafe(channels, l, evs, t);
    StepFlushesExact(t, l, i, room);
    CleanupIsExact(t, l, i, c, n);
  }

  /** With stream windows no larger than the buffer, a stream can only overflow the tunnel's limit,
      never its own. */
  lemma StreamLimitUnreachable(channels: nat, l: Limits, evs: seq<ServerEvent>, t: Server, i: nat, c: nat, f: Frame)
    requires ServerReached(channels, l, evs, t) && l.streamCreditBytes <= l.pendingDataBytes
    requires i in t.streams && f.ResponseData? && f.streamId == i
    requires ConsumeInbound(t.credit, i, c, ResponseBody, |f.payload|).ok
    ensures t.streams[i].pendingBytes + |f.payload| <= l.pendingDataBytes
  {
    ServerReachedSafe(channels, l, evs, t);
    StreamBooks(t, l, i);
  }

  /** armReceiveEndTimeout goes on to set its timer: data is still missing before the declared end. */
  predicate ArmsEndTimeout(st: ServerStream, lastSeq: int) {
    lastSeq != -1 && st.recvNext <= lastSeq
  }

  /** No live stream has a declared end: an accepted RESPONSE_END removes its stream at once. */
  lemma NoPendingEnd(channels: nat, l: Limits, evs: seq<ServerEvent>, t: Server, i: nat, c: nat, kind: DataKind, lastSeq: int)
    requires ServerReached(channels, l, evs, t) && i in t.streams
    ensures t.streams[i].recvEnd == None
    ensures ReceiveEnd(t, i, c, kind, lastSeq).error == None ==> i !in ReceiveEnd(t, i, c, kind, lastSeq).server.streams
    ensures ReceiveEnd(t, i, c, kind, lastSeq).error == None ==> !ArmsEndTimeout(t.streams[i], lastSeq)
  {
    ServerReachedSafe(channels, l, evs, t);
    StreamBooks(t, l, i);
    if ReceiveEnd(t, i, c, kind, lastSeq).error == None {
      EndRemoves(t, i, c, kind, lastSeq);
    }
  }

  lemma DispatchNotAfterEnd(s: Server, l: Limits, c: nat, f: Frame)
    requires !f.ChannelCredit? && f.streamId in s.streams && s.streams[f.streamId].recvEnd == None
    ensures DispatchStreamFrame(s, l, c, f).error != Some(DataAfterEnd)
  {
    if f.ResponseStart? {
      FlushNeverFails(MarkStarted(s, f.streamId), f.streamId);
    }
  }

  /** So data never arrives "after declared end". */
  lemma NeverDataAfterEnd(channels: nat, l: Limits, evs: seq<ServerEvent>, t: Server, c: nat, f: Frame)
    requires ServerReached(channels, l, evs, t)
    ensures Receive(t, l, c, f).error != Some(DataAfterEnd)
  {
    if IsResponse(f) && f.streamId in t.streams {
      NoPendingEnd(channels, l, evs, t, f.streamId, c, ResponseBody, 0);
      DispatchNotAfterEnd(t, l, c, f);
    }
  }

  /** A payload is never delivered past queued ones: whatever waits is not deliverable. */
  lemma QueueIsBlocked(channels: nat, l: Limits, evs: seq<ServerEvent>, t: Server, i: nat)
    requires ServerReached(channels, l, evs, t) && i in t.streams
    ensures t.streams[i].pending != [] ==> !Deliverable(t.streams[i])
    ensures Get(t.credit.inStream, Key(i, ResponseBody)) + t.streams[i].pendingBytes == l.streamCreditBytes
  {
    ServerReachedSafe(channels, l, evs, t);
    assert Settled(PartOf(t, i)) && LiveSafe(PartOf(t, i), l, t.dataChannels);
  }
}
