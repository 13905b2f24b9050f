/** Each server step keeps ServerLog, given that the frame it receives is one an honest client sends. */
module ServerLogOps {
  import opened Protocol
  import opened CreditSpec
  import opened Frames
  import opened ServerSpec
  import opened ServerSafety
  import opened ServerOps
  import opened ServerLogs

  /** Appending the two frames of a grant. */
  lemma GrantSnoc(fs: seq<Frame>, i: nat, kind: DataKind, n: nat)
    ensures var gs := fs + GrantFrames(i, kind, n);
            && Payload(gs) == Payload(fs) && ChannelGrants(gs) == ChannelGrants(fs) + n
            && OnlyOf(GrantFrames(i, kind, n), i)
    ensures Proj(fs + GrantFrames(i, kind, n), i) == Proj(fs, i) + if n == 0 then [] else [StreamCredit(i, kind, n)]
  {
    if n == 0 {
      assert fs + [] == fs;
    } else {
      var f1, f2 := StreamCredit(i, kind, n), ChannelCredit(n);
      assert fs + [f1, f2] == (fs + [f1]) + [f2];
      Snoc(fs, f1);
      Snoc(fs + [f1], f2);
      ProjSnoc(fs, f1, i);
      ProjSnoc(fs + [f1], f2, i);
    }
  }

  /** A grant on the server's side of stream i's own log. */
  function WithGrant(sent: seq<Frame>, i: nat, n: nat): seq<Frame> {
    sent + if n == 0 then [] else [StreamCredit(i, ResponseBody, n)]
  }

  lemma WithGrantFacts(sent: seq<Frame>, i: nat, n: nat)
    requires WellDown(sent) && sent != []
    ensures var sent' := WithGrant(sent, i, n);
            && WellDown(sent') && sent' != [] && Count(sent') == Count(sent) && Payload(sent') == Payload(sent)
            && Ended(sent') == Ended(sent) && Aborted(sent') == Aborted(sent)
            && StreamGrants(sent') == StreamGrants(sent) + n
  {
    if n == 0 {
      assert sent + [] == sent;
    } else {
      Snoc(sent, StreamCredit(i, ResponseBody, n));
    }
  }

  /** The books of stream i, all in one place. */
  ghost predicate Near(s: Server, l: Limits, D: Logs, U: Logs, i: nat, c: nat) {
    && |D| == |U| && c < |D| && i in s.pumps && s.pumps[i].channel == c
    && (i in s.streams ==> s.streams[i].channel == c)
    && PartLog(PartOf(s, i), l, Proj(D[c], i), Proj(U[c], i))
    && LaneLog(LaneOf(s, c), l, D[c], U[c])
  }

  lemma NearLog(s: Server, l: Limits, D: Logs, U: Logs, i: nat)
    requires CoreSafe(s, l) && ServerLog(s, l, D, U) && i in s.pumps
    ensures Near(s, l, D, U, i, s.pumps[i].channel)
    ensures i in s.streams ==> Books(s, l, i) && ClosedApart(s)
  {
    if i in s.streams {
      StreamBooks(s, l, i);
    }
  }

  lemma PutNothing(logs: Logs, c: nat)
    requires c < |logs|
    ensures logs[c] + [] == logs[c] && Put(logs, c, []) == logs
  {
  }

  // ----- the effect of each operation on one stream and one channel -----

  lemma CleanupEffect(s: Server, i: nat)
    requires i in s.streams
    ensures var s' := CleanupStream(s, i); var p, p' := PartOf(s, i), PartOf(s', i);
            p'.stream == None && p'.pump == p.pump && p'.delivered == p.delivered
    ensures var c := s.streams[i].channel; var a := LaneOf(s, c);
            LaneOf(CleanupStream(s, i), c) == a.(lost := a.lost + s.streams[i].pendingBytes)
  {
  }

  lemma FlushHeadEffect(s: Server, l: Limits, i: nat)
    requires CanFlush(s, i) && Books(s, l, i)
    ensures var r := FlushHead(s, i); var st := s.streams[i]; var x := st.pending[0]; var p := PartOf(s, i);
            && r.channel == st.channel && r.out == GrantFrames(i, ResponseBody, |x|)
            && PartOf(r.server, i) == p.(
                 stream := Some(st.(room := Some(st.room.value - 1), pending := st.pending[1..], pendingBytes := Monus(st.pendingBytes, |x|))),
                 delivered := p.delivered + x, inCredit := p.inCredit + |x|)
    ensures var c := s.streams[i].channel; var a := LaneOf(s, c);
            LaneOf(FlushHead(s, i).server, c) == a.(inCredit := a.inCredit + |s.streams[i].pending[0]|)
  {
    ConcatHead(s.streams[i].pending);
  }

  // ----- the same on logs -----

  lemma GonePart(p: Part, p': Part, l: Limits, sent: seq<Frame>, recvd: seq<Frame>)
    requires PartLog(p, l, sent, recvd)
    requires p'.stream == None && p'.pump == p.pump && p'.delivered == p.delivered
    ensures PartLog(p', l, sent, recvd)
  {
  }

  /** RequestAbort sent for a stream that is gone from the books. */
  lemma AbortPart(p': Part, l: Limits, i: nat, sent: seq<Frame>, recvd: seq<Frame>)
    requires PartLog(p', l, sent, recvd) && p'.stream == None && DownNext(sent, RequestAbort(i))
    ensures PartLog(p', l, sent + [RequestAbort(i)], recvd)
  {
    Snoc(sent, RequestAbort(i));
  }

  lemma DeliveredPart(p: Part, p': Part, l: Limits, i: nat, x: bytes, sent: seq<Frame>, recvd: seq<Frame>)
    requires PartLog(p, l, sent, recvd) && p.stream.Some? && p.stream.value.pending != [] && p.stream.value.pending[0] == x
    requires p' == p.(stream := p'.stream, delivered := p.delivered + x, inCredit := p.inCredit + |x|)
    requires p'.stream.Some? && p'.stream.value.recvNext == p.stream.value.recvNext
    requires p'.stream.value.pending == p.stream.value.pending[1..]
    requires p.inCredit + |Concat(p.stream.value.pending)| == l.streamCreditBytes
    ensures PartLog(p', l, WithGrant(sent, i, |x|), recvd)
  {
    var pending := p.stream.value.pending;
    ConcatHead(pending);
    WithGrantFacts(sent, i, |x|);
    assert p.delivered + (x + Concat(pending[1..])) == (p.delivered + x) + Concat(pending[1..]);
    assert |Payload(recvd)| == |p.delivered| + |x| + |Concat(pending[1..])|;
  }

  lemma FlushHeadStep(s: Server, l: Limits, D: Logs, U: Logs, i: nat, c: nat)
    requires Near(s, l, D, U, i, c) && CanFlush(s, i) && Books(s, l, i)
    ensures LogStep(s, FlushHead(s, i).server, l, D, U, i, c, FlushHead(s, i).out, [])
  {
    var r := FlushHead(s, i);
    var x := s.streams[i].pending[0];
    FlushHeadMoves(s, i);
    FlushHeadEffect(s, l, i);
    DeliveredPart(PartOf(s, i), PartOf(r.server, i), l, i, x, Proj(D[c], i), Proj(U[c], i));
    GrantSnoc(D[c], i, ResponseBody, |x|);
    PutNothing(U, c);
  }

  lemma FlushHeadLog(s: Server, l: Limits, D: Logs, U: Logs, i: nat)
    requires CoreSafe(s, l) && ServerLog(s, l, D, U) && CanFlush(s, i)
    ensures var r := FlushHead(s, i); r.channel == s.streams[i].channel < |D| && ServerLog(r.server, l, Put(D, r.channel, r.out), U)
  {
    StreamBooks(s, l, i);
    NearLog(s, l, D, U, i);
    var c := s.streams[i].channel;
    FlushHeadStep(s, l, D, U, i, c);
    FlushHeadEffect(s, l, i);
    LogStepLog(s, FlushHead(s, i).server, l, D, U, i, c, FlushHead(s, i).out, []);
    PutNothing(U, c);
  }

  lemma PutTwice(D: Logs, c: nat, a: seq<Frame>, b: seq<Frame>)
    requires c < |D|
    ensures Put(Put(D, c, a), c, b) == Put(D, c, a + b)
  {
    assert D[c] + (a + b) == D[c] + a + b;
  }

  lemma HomeBound(s: Server, l: Limits, D: Logs, U: Logs, i: nat)
    requires CoreSafe(s, l) && ServerLog(s, l, D, U) && i in s.streams
    ensures s.streams[i].channel < |D|
  {
    StreamBooks(s, l, i);
  }

  lemma {:induction false} FlushLog(s: Server, l: Limits, D: Logs, U: Logs, i: nat)
    requires CoreSafe(s, l) && ServerLog(s, l, D, U) && i in s.streams
    ensures var r := FlushPending(s, i); r.channel == s.streams[i].channel < |D| && ServerLog(r.server, l, Put(D, r.channel, r.out), U)
    decreases QueueLength(s, i)
  {
    HomeBound(s, l, D, U, i);
    var c := s.streams[i].channel;
    if CanFlush(s, i) {
      var r := FlushHead(s, i);
      FlushHeadSafe(s, l, i);
      FlushHeadLog(s, l, D, U, i);
      FlushLog(r.server, l, Put(D, c, r.out), U, i);
      PutTwice(D, c, r.out, FlushPending(r.server, i).out);
    } else {
      PutNothing(D, c);
    }
  }

  lemma CancelStep(s: Server, s': Server, l: Limits, D: Logs, U: Logs, i: nat, c: nat)
    requires Near(s, l, D, U, i, c) && Moves(s, s', i, c) && i in s'.pumps && s'.pumps[i].channel == c
    requires PartLog(PartOf(s', i), l, Proj(D[c], i), Proj(U[c], i)) && LaneLog(LaneOf(s', c), l, D[c], U[c])
    requires PartOf(s, i).stream.Some? && PartOf(s', i).stream == None
    ensures LogStep(s, s', l, D, U, i, c, [RequestAbort(i)], [])
  {
    var f := RequestAbort(i);
    Snoc(D[c], f);
    ProjSnoc(D[c], f, i);
    Snoc(Proj(D[c], i), f);
    PutNothing(U, c);
    AbortPart(PartOf(s', i), l, i, Proj(D[c], i), Proj(U[c], i));
  }

  lemma QuietStep(s: Server, s': Server, l: Limits, D: Logs, U: Logs, i: nat, c: nat)
    requires Near(s, l, D, U, i, c) && Moves(s, s', i, c) && i in s'.pumps && s'.pumps[i].channel == c
    requires PartLog(PartOf(s', i), l, Proj(D[c], i), Proj(U[c], i)) && LaneLog(LaneOf(s', c), l, D[c], U[c])
    ensures LogStep(s, s', l, D, U, i, c, [], [])
  {
    PutNothing(U, c);
    PutNothing(D, c);
  }

  lemma CleanupBooks(s: Server, l: Limits, D: Logs, U: Logs, i: nat, c: nat)
    requires Near(s, l, D, U, i, c) && i in s.streams
    ensures var s' := CleanupStream(s, i);
            && Moves(s, s', i, c) && s'.pumps == s.pumps && PartOf(s', i).stream == None
            && PartLog(PartOf(s', i), l, Proj(D[c], i), Proj(U[c], i)) && LaneLog(LaneOf(s', c), l, D[c], U[c])
  {
    CleanupMoves(s, i);
    CleanupEffect(s, i);
    GonePart(PartOf(s, i), PartOf(CleanupStream(s, i), i), l, Proj(D[c], i), Proj(U[c], i));
  }

  lemma CancelLog(s: Server, l: Limits, D: Logs, U: Logs, i: nat)
    requires CoreSafe(s, l) && ServerLog(s, l, D, U) && i in s.streams
    ensures var c := s.streams[i].channel;
            c < |D| && ServerLog(CleanupStream(s, i), l, Put(D, c, [RequestAbort(i)]), U)
            && ServerLog(CleanupStream(s, i), l, D, U)
  {
    StreamBooks(s, l, i);
    NearLog(s, l, D, U, i);
    var c := s.streams[i].channel;
    CleanupBooks(s, l, D, U, i, c);
    CancelStep(s, CleanupStream(s, i), l, D, U, i, c);
    QuietStep(s, CleanupStream(s, i), l, D, U, i, c);
    LogStepLog(s, CleanupStream(s, i), l, D, U, i, c, [RequestAbort(i)], []);
    LogStepLog(s, CleanupStream(s, i), l, D, U, i, c, [], []);
    PutNothing(U, c);
    PutNothing(D, c);
  }

  /** What an honest client guarantees about a frame it sends on channel c, given what both sides
      have sent before. This is all the server relies on. */
  ghost predicate HonestUp(s: Server, l: Limits, D: Logs, U: Logs, c: nat, f: Frame)
    requires |D| == |U|
  {
    && c < |D|
    && |Payload(U[c] + [f])| <= l.channelCreditBytes + ChannelGrants(D[c])
    && ChannelGrants(U[c] + [f]) <= |Payload(D[c])|
    && (f.ChannelCredit? || (
          var i := f.streamId;
          && i in s.pumps && s.pumps[i].channel == c
          && UpNext(Proj(U[c], i), f)
          && |Payload(Proj(U[c], i) + [f])| <= l.streamCreditBytes + StreamGrants(Proj(D[c], i))
          && StreamGrants(Proj(U[c], i) + [f]) <= |Payload(Proj(D[c], i))|))
  }


  // ----- RESPONSE_DATA -----

  /** The facts a data frame meets at a live, settled stream. */
  ghost predicate DataReady(s: Server, l: Limits, i: nat, c: nat, f: Frame) {
    && f.ResponseData? && f.streamId == i && Books(s, l, i) && s.streams[i].channel == c && Settled(PartOf(s, i))
    && ConsumeInbound(s.credit, i, c, ResponseBody, |f.payload|).ok
    && Accepted(s, l, i, c, f.seqNo, f.flags, f.payload)
  }

  lemma DataDeliverEffect(s: Server, l: Limits, i: nat, c: nat, f: Frame)
    requires DataReady(s, l, i, c, f) && Deliverable(s.streams[i])
    ensures var r := ReceiveData(s, l, i, c, f.seqNo, f.flags, f.payload); var st := s.streams[i]; var p := PartOf(s, i);
            && r.channel == c && r.out == GrantFrames(i, ResponseBody, |f.payload|)
            && PartOf(r.server, i) == p.(stream := Some(st.(recvNext := st.recvNext + 1, room := Some(st.room.value - 1))),
                                         delivered := p.delivered + f.payload)
            && LaneOf(r.server, c) == LaneOf(s, c)
  {
  }

  lemma DataQueueEffect(s: Server, l: Limits, i: nat, c: nat, f: Frame)
    requires DataReady(s, l, i, c, f) && !Deliverable(s.streams[i])
    requires !Overflows(AcceptData(s, i, c, |f.payload|), l, i, |f.payload|)
    ensures var r := ReceiveData(s, l, i, c, f.seqNo, f.flags, f.payload); var st := s.streams[i]; var n := |f.payload|;
            var p := PartOf(s, i); var a := LaneOf(s, c);
            && r.channel == c && r.out == [] && n <= p.inCredit && n <= a.inCredit
            && PartOf(r.server, i) == p.(stream := Some(st.(recvNext := st.recvNext + 1, pending := st.pending + [f.payload],
                                                           pendingBytes := st.pendingBytes + n)),
                                         inCredit := p.inCredit - n)
            && LaneOf(r.server, c) == a.(inCredit := a.inCredit - n)
  {
  }

  lemma DataOverflowEffect(s: Server, l: Limits, i: nat, c: nat, f: Frame)
    requires DataReady(s, l, i, c, f) && !Deliverable(s.streams[i])
    requires Overflows(AcceptData(s, i, c, |f.payload|), l, i, |f.payload|)
    ensures var r := ReceiveData(s, l, i, c, f.seqNo, f.flags, f.payload); var n := |f.payload|;
            var p, p' := PartOf(s, i), PartOf(r.server, i); var a, a' := LaneOf(s, c), LaneOf(r.server, c);
            && r.channel == c && r.out == [] && n <= a.inCredit
            && p'.stream == None && p'.pump == p.pump && p'.delivered == p.delivered
            && a' == a.(inCredit := a.inCredit - n, lost := a'.lost)
  {
  }

  lemma DataDeliverPart(p: Part, p': Part, l: Limits, i: nat, f: Frame, sent: seq<Frame>, recvd: seq<Frame>)
    requires PartLog(p, l, sent, recvd) && p.stream.Some? && p.stream.value.pending == [] && f.ResponseData?
    requires p' == p.(stream := p'.stream, delivered := p.delivered + f.payload)
    requires p'.stream.Some? && p'.stream.value.recvNext == p.stream.value.recvNext + 1 && p'.stream.value.pending == []
    requires p.inCredit == l.streamCreditBytes
    ensures PartLog(p', l, WithGrant(sent, i, |f.payload|), recvd + [f])
  {
    Snoc(recvd, f);
    WithGrantFacts(sent, i, |f.payload|);
    assert p.delivered + [] == p.delivered;
    assert p'.delivered + [] == p'.delivered;
  }

  lemma DataQueuePart(p: Part, p': Part, l: Limits, f: Frame, sent: seq<Frame>, recvd: seq<Frame>)
    requires PartLog(p, l, sent, recvd) && p.stream.Some? && f.ResponseData? && |f.payload| <= p.inCredit
    requires p' == p.(stream := p'.stream, inCredit := p.inCredit - |f.payload|)
    requires p'.stream.Some? && p'.stream.value.recvNext == p.stream.value.recvNext + 1
    requires p'.stream.value.pending == p.stream.value.pending + [f.payload]
    ensures PartLog(p', l, sent, recvd + [f])
  {
    Snoc(recvd, f);
    ConcatSnoc(p.stream.value.pending, f.payload);
    assert p.delivered + (Concat(p.stream.value.pending) + f.payload) == p.delivered + Concat(p.stream.value.pending) + f.payload;
  }

  /** Any frame that reaches a stream which is gone, or which it removes. */
  lemma GoneReceives(p: Part, p': Part, l: Limits, f: Frame, sent: seq<Frame>, recvd: seq<Frame>)
    requires PartLog(p, l, sent, recvd)
    requires p'.stream == None && p'.pump == p.pump && p'.delivered == p.delivered
    ensures PartLog(p', l, sent, recvd + [f])
  {
    Snoc(recvd, f);
  }

  lemma LaneReceives(a: Lane, a': Lane, l: Limits, c: nat, f: Frame, sent: seq<Frame>, recvd: seq<Frame>)
    requires LaneLog(a, l, sent, recvd)
    requires f.ChannelCredit? ==> a'.outCredit == a.outCredit + f.amount
    requires !f.ChannelCredit? ==> a'.outCredit == a.outCredit
    requires a'.inCredit + DataBytes(f) == a.inCredit + (a'.stale - a.stale) && a'.stale >= a.stale
    ensures LaneLog(a', l, sent, recvd + [f])
  {
    Snoc(recvd, f);
  }

  lemma GrantLane(a: Lane, l: Limits, i: nat, f: Frame, sent: seq<Frame>, recvd: seq<Frame>)
    requires LaneLog(a, l, sent, recvd) && f.ResponseData?
    ensures LaneLog(a, l, sent + GrantFrames(i, ResponseBody, |f.payload|), recvd + [f])
  {
    GrantSnoc(sent, i, ResponseBody, |f.payload|);
    Snoc(recvd, f);
  }

  lemma DeliverStep(s: Server, s': Server, l: Limits, D: Logs, U: Logs, i: nat, c: nat, f: Frame, p': Part, a: Lane)
    requires Homed(s, s', D, U, i, c) && p' == PartOf(s', i) && a == LaneOf(s', c) && f.ResponseData? && f.streamId == i
    requires PartLog(p', l, WithGrant(Proj(D[c], i), i, |f.payload|), Proj(U[c], i) + [f]) && LaneLog(a, l, D[c], U[c])
    ensures LogStep(s, s', l, D, U, i, c, GrantFrames(i, ResponseBody, |f.payload|), [f])
  {
    GrantSnoc(D[c], i, ResponseBody, |f.payload|);
    ProjSnoc(U[c], f, i);
    GrantLane(a, l, i, f, D[c], U[c]);
  }

  lemma DataDeliverStep(s: Server, l: Limits, D: Logs, U: Logs, i: nat, c: nat, f: Frame)
    requires Near(s, l, D, U, i, c) && DataReady(s, l, i, c, f) && Deliverable(s.streams[i])
    ensures var r := ReceiveData(s, l, i, c, f.seqNo, f.flags, f.payload); LogStep(s, r.server, l, D, U, i, c, r.out, [f])
  {
    var r := ReceiveData(s, l, i, c, f.seqNo, f.flags, f.payload);
    DataMoves(s, l, i, c, f.seqNo, f.flags, f.payload);
    DataDeliverEffect(s, l, i, c, f);
    SamePump(s, r.server, i);
    DataDeliverPart(PartOf(s, i), PartOf(r.server, i), l, i, f, Proj(D[c], i), Proj(U[c], i));
    DeliverStep(s, r.server, l, D, U, i, c, f, PartOf(r.server, i), LaneOf(r.server, c));
  }

  /** Stream i is on channel c before and after, and nothing else moved. */
  ghost predicate Homed(s: Server, s': Server, D: Logs, U: Logs, i: nat, c: nat) {
    && |D| == |U| && c < |D| && Moves(s, s', i, c)
    && i in s.pumps && i in s'.pumps && s.pumps[i].channel == s'.pumps[i].channel == c
  }

  lemma SamePump(s: Server, s': Server, i: nat)
    requires PartOf(s', i).pump == PartOf(s, i).pump && i in s.pumps
    ensures i in s'.pumps && s'.pumps[i] == s.pumps[i]
  {
  }

  /** A step that receives f for a stream that is gone afterwards. */
  lemma GoneStep(s: Server, s': Server, l: Limits, D: Logs, U: Logs, i: nat, c: nat, f: Frame, p: Part, p': Part, a: Lane, a': Lane)
    requires Homed(s, s', D, U, i, c) && Of(f, i) && p' == PartOf(s', i) && a' == LaneOf(s', c)
    requires PartLog(p, l, Proj(D[c], i), Proj(U[c], i)) && LaneLog(a, l, D[c], U[c])
    requires p'.stream == None && p'.pump == p.pump && p'.delivered == p.delivered
    requires a'.outCredit == a.outCredit && a'.stale >= a.stale && a'.inCredit + DataBytes(f) == a.inCredit + (a'.stale - a.stale)
    ensures LogStep(s, s', l, D, U, i, c, [], [f])
  {
    GoneReceives(p, p', l, f, Proj(D[c], i), Proj(U[c], i));
    LaneReceives(a, a', l, c, f, D[c], U[c]);
    ProjSnoc(U[c], f, i);
    PutNothing(D, c);
  }

  lemma DataOverflowStep(s: Server, l: Limits, D: Logs, U: Logs, i: nat, c: nat, f: Frame)
    requires Near(s, l, D, U, i, c) && DataReady(s, l, i, c, f) && !Deliverable(s.streams[i])
    requires Overflows(AcceptData(s, i, c, |f.payload|), l, i, |f.payload|)
    ensures var r := ReceiveData(s, l, i, c, f.seqNo, f.flags, f.payload); LogStep(s, r.server, l, D, U, i, c, r.out, [f])
  {
    DataMoves(s, l, i, c, f.seqNo, f.flags, f.payload);
    DataOverflowEffect(s, l, i, c, f);
    var s' := ReceiveData(s, l, i, c, f.seqNo, f.flags, f.payload).server;
    SamePump(s, s', i);
    GoneStep(s, s', l, D, U, i, c, f, PartOf(s, i), PartOf(s', i), LaneOf(s, c), LaneOf(s', c));
  }

  lemma DataQueueStep(s: Server, l: Limits, D: Logs, U: Logs, i: nat, c: nat, f: Frame)
    requires Near(s, l, D, U, i, c) && DataReady(s, l, i, c, f) && !Deliverable(s.streams[i])
    requires !Overflows(AcceptData(s, i, c, |f.payload|), l, i, |f.payload|)
    ensures var r := ReceiveData(s, l, i, c, f.seqNo, f.flags, f.payload); LogStep(s, r.server, l, D, U, i, c, r.out, [f])
  {
    var r := ReceiveData(s, l, i, c, f.seqNo, f.flags, f.payload);
    DataMoves(s, l, i, c, f.seqNo, f.flags, f.payload);
    DataQueueEffect(s, l, i, c, f);
    DataQueuePart(PartOf(s, i), PartOf(r.server, i), l, f, Proj(D[c], i), Proj(U[c], i));
    LaneReceives(LaneOf(s, c), LaneOf(r.server, c), l, c, f, D[c], U[c]);
    ProjSnoc(U[c], f, i);
    PutNothing(D, c);
  }

  // ----- the other frames of a live stream -----

  lemma RemoveStep(s: Server, l: Limits, D: Logs, U: Logs, i: nat, c: nat, f: Frame)
    requires Near(s, l, D, U, i, c) && i in s.streams && Of(f, i) && !IsData(f)
    ensures LogStep(s, CleanupStream(s, i), l, D, U, i, c, [], [f])
  {
    CleanupMoves(s, i);
    CleanupEffect(s, i);
    GoneReceives(PartOf(s, i), PartOf(CleanupStream(s, i), i), l, f, Proj(D[c], i), Proj(U[c], i));
    LaneReceives(LaneOf(s, c), LaneOf(CleanupStream(s, i), c), l, c, f, D[c], U[c]);
    ProjSnoc(U[c], f, i);
    PutNothing(D, c);
  }

  lemma QuietPart(p: Part, p': Part, l: Limits, f: Frame, sent: seq<Frame>, recvd: seq<Frame>)
    requires PartLog(p, l, sent, recvd) && f.ResponseStart?
    requires p.stream.Some? && p'.stream.Some? && p' == p.(stream := p'.stream)
    requires p'.stream.value.recvNext == p.stream.value.recvNext && p'.stream.value.pending == p.stream.value.pending
    ensures PartLog(p', l, sent, recvd + [f])
  {
    Snoc(recvd, f);
  }

  lemma StartStep(s: Server, l: Limits, D: Logs, U: Logs, i: nat, c: nat, f: Frame)
    requires Near(s, l, D, U, i, c) && i in s.streams && Of(f, i) && f.ResponseStart?
    ensures LogStep(s, MarkStarted(s, i), l, D, U, i, c, [], [f])
  {
    var s' := MarkStarted(s, i);
    TouchMoves(s, i, s.streams[i].(started := true));
    QuietPart(PartOf(s, i), PartOf(s', i), l, f, Proj(D[c], i), Proj(U[c], i));
    LaneReceives(LaneOf(s, c), LaneOf(s', c), l, c, f, D[c], U[c]);
    ProjSnoc(U[c], f, i);
    PutNothing(D, c);
  }

  lemma TouchStep(s: Server, l: Limits, D: Logs, U: Logs, i: nat, c: nat, room: nat)
    requires Near(s, l, D, U, i, c) && i in s.streams
    ensures LogStep(s, WithRoom(s, i, room), l, D, U, i, c, [], [])
  {
    var s' := WithRoom(s, i, room);
    TouchMoves(s, i, s.streams[i].(room := Some(room)));
    PutNothing(D, c);
    PutNothing(U, c);
  }

  // ----- frames that only move windows or are ignored -----

  lemma StaleEffect(s: Server, s': Server, i: nat, c: nat, n: nat)
    requires s' == s.(stale := Bump(s.stale, c, n))
    ensures Moves(s, s', i, c) && PartOf(s', i) == PartOf(s, i)
    ensures LaneOf(s', c) == LaneOf(s, c).(stale := LaneOf(s, c).stale + n)
  {
    forall j | j != i ensures PartOf(s', j) == PartOf(s, j) {
    }
  }

  lemma StaleStep(s: Server, l: Limits, D: Logs, U: Logs, i: nat, c: nat, f: Frame)
    requires Near(s, l, D, U, i, c) && i !in s.streams && Of(f, i)
    ensures LogStep(s, s.(stale := Bump(s.stale, c, DataBytes(f))), l, D, U, i, c, [], [f])
  {
    var s' := s.(stale := Bump(s.stale, c, DataBytes(f)));
    StaleEffect(s, s', i, c, DataBytes(f));
    GoneStep(s, s', l, D, U, i, c, f, PartOf(s, i), PartOf(s', i), LaneOf(s, c), LaneOf(s', c));
  }

  lemma CreditPart(p: Part, p': Part, l: Limits, f: Frame, sent: seq<Frame>, recvd: seq<Frame>)
    requires PartLog(p, l, sent, recvd) && f.StreamCredit?
    requires p' == p.(outCredit := AddCredit(p.outCredit, f.amount))
    requires StreamGrants(recvd + [f]) <= |Payload(sent)| && l.streamCreditBytes <= MAX_CREDIT_BYTES
    ensures PartLog(p', l, sent, recvd + [f])
    ensures p.stream.Some? ==> p'.outCredit == p.outCredit + f.amount
  {
    Snoc(recvd, f);
  }

  lemma StreamCreditStep(s: Server, l: Limits, D: Logs, U: Logs, i: nat, c: nat, f: Frame)
    requires Near(s, l, D, U, i, c) && Of(f, i) && f.StreamCredit? && f.kind == RequestBody && l.streamCreditBytes <= MAX_CREDIT_BYTES
    requires StreamGrants(Proj(U[c], i) + [f]) <= |Payload(Proj(D[c], i))|
    ensures LogStep(s, s.(credit := ApplyStream(s.credit, i, f.kind, f.amount)), l, D, U, i, c, [], [f])
  {
    var s' := s.(credit := ApplyStream(s.credit, i, f.kind, f.amount));
    forall j | j != i ensures PartOf(s', j) == PartOf(s, j) {
    }
    assert LaneOf(s', c) == LaneOf(s, c);
    CreditPart(PartOf(s, i), PartOf(s', i), l, f, Proj(D[c], i), Proj(U[c], i));
    LaneReceives(LaneOf(s, c), LaneOf(s', c), l, c, f, D[c], U[c]);
    ProjSnoc(U[c], f, i);
    PutNothing(D, c);
  }

  lemma ChannelCreditLane(a: Lane, a': Lane, l: Limits, f: Frame, sent: seq<Frame>, recvd: seq<Frame>)
    requires LaneLog(a, l, sent, recvd) && f.ChannelCredit? && a' == a.(outCredit := AddCredit(a.outCredit, f.amount))
    requires ChannelGrants(recvd + [f]) <= |Payload(sent)| && l.channelCreditBytes <= MAX_CREDIT_BYTES
    ensures a'.outCredit == a.outCredit + f.amount
    ensures LaneLog(a', l, sent, recvd + [f])
  {
    Snoc(recvd, f);
  }

  lemma ChannelCreditStreams(s: Server, s': Server, l: Limits, D: Logs, U: Logs, c: nat, f: Frame)
    requires |D| == |U| && c < |D| && StreamsLog(s, l, D, U) && f.ChannelCredit?
    requires s'.pumps == s.pumps && forall i :: PartOf(s', i) == PartOf(s, i)
    ensures StreamsLog(s', l, D, Put(U, c, [f]))
  {
    var U' := Put(U, c, [f]);
    forall i | i in s'.pumps
      ensures s'.pumps[i].channel < |D| && PartLog(PartOf(s', i), l, Proj(D[s'.pumps[i].channel], i), Proj(U'[s'.pumps[i].channel], i))
    {
      assert PartOf(s', i) == PartOf(s, i);
      ProjSnoc(U[c], f, i);
      var h := s.pumps[i].channel;
      assert Proj(U'[h], i) == Proj(U[h], i);
      assert PartLog(PartOf(s, i), l, Proj(D[h], i), Proj(U[h], i));
    }
  }

  lemma ChannelCreditEffect(s: Server, s': Server, c: nat, amount: nat)
    requires s' == s.(credit := ApplyChannel(s.credit, c, amount))
    ensures s'.pumps == s.pumps && s'.dataChannels == s.dataChannels && forall i :: PartOf(s', i) == PartOf(s, i)
    ensures LaneOf(s', c) == LaneOf(s, c).(outCredit := AddCredit(LaneOf(s, c).outCredit, amount))
    ensures forall d :: d != c ==> LaneOf(s', d) == LaneOf(s, d)
  {
  }

  lemma ChannelCreditLanes(s: Server, s': Server, l: Limits, D: Logs, U: Logs, c: nat, f: Frame)
    requires IsTunnelLimits(l) && |D| == |U| && LanesLog(s, l, D, U) && f.ChannelCredit? && c < |D|
    requires ChannelGrants(U[c] + [f]) <= |Payload(D[c])|
    requires LaneOf(s', c) == LaneOf(s, c).(outCredit := AddCredit(LaneOf(s, c).outCredit, f.amount))
    requires forall d :: d != c ==> LaneOf(s', d) == LaneOf(s, d)
    ensures LanesLog(s', l, D, Put(U, c, [f]))
  {
    forall d | 0 <= d < |D| ensures LaneLog(LaneOf(s', d), l, D[d], Put(U, c, [f])[d]) {
      if d == c {
        ChannelCreditLane(LaneOf(s, c), LaneOf(s', c), l, f, D[c], U[c]);
      } else {
        assert LaneOf(s', d) == LaneOf(s, d);
      }
    }
  }

  lemma ChannelCreditLog(s: Server, l: Limits, D: Logs, U: Logs, c: nat, f: Frame)
    requires IsTunnelLimits(l) && ServerLog(s, l, D, U) && f.ChannelCredit? && c < |D|
    requires ChannelGrants(U[c] + [f]) <= |Payload(D[c])|
    ensures ServerLog(s.(credit := ApplyChannel(s.credit, c, f.amount)), l, D, Put(U, c, [f]))
  {
    var s' := s.(credit := ApplyChannel(s.credit, c, f.amount));
    ChannelCreditEffect(s, s', c, f.amount);
    ChannelCreditStreams(s, s', l, D, U, c, f);
    ChannelCreditLanes(s, s', l, D, U, c, f);
  }
}
