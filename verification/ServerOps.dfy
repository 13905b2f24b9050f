/** Each server operation keeps the bookkeeping of ServerSafety. */
module ServerOps {
  import opened Protocol
  import opened CreditSpec
  import opened Frames
  import opened ServerSpec
  import opened ServerSafety

  /** What CoreSafe says about one live stream. */
  ghost predicate Books(s: Server, l: Limits, i: nat) {
    && i in s.streams && i in s.pumps
    && s.streams[i].channel == s.pumps[i].channel
    && LiveSafe(PartOf(s, i), l, s.dataChannels)
    && s.streams[i].pendingBytes <= s.pendingDataBytes <= l.pendingDataBytes
    && Get(s.credit.inChannel, s.streams[i].channel) + s.streams[i].pendingBytes <= l.channelCreditBytes <= MAX_CREDIT_BYTES
    && l.streamCreditBytes <= MAX_CREDIT_BYTES
  }

  lemma StreamBooks(s: Server, l: Limits, i: nat)
    requires CoreSafe(s, l) && i in s.streams
    ensures Books(s, l, i)
  {
    var c := s.streams[i].channel;
    assert LiveSafe(PartOf(s, i), l, s.dataChannels);
    MovesSum(s, s, i, c, None);
    MovesSum(s, s, i, c, Some(c));
    assert LaneSafe(s, l, c);
  }

  ghost predicate ClosedApart(s: Server) {
    forall j :: j in s.closed ==> j !in s.streams
  }

  lemma CleanupMoves(s: Server, i: nat)
    requires i in s.streams
    ensures Moves(s, CleanupStream(s, i), i, s.streams[i].channel)
  {
    var s' := CleanupStream(s, i);
    forall j | j != i ensures PartOf(s', j) == PartOf(s, j) {
    }
    forall d | d != s.streams[i].channel ensures LaneOf(s', d) == LaneOf(s, d) {
    }
  }

  lemma CleanupBalanced(s: Server, l: Limits, i: nat)
    requires Books(s, l, i) && ClosedApart(s)
    ensures Balanced(s, CleanupStream(s, i), l, i, s.streams[i].channel)
  {
  }

  lemma CleanupSafe(s: Server, l: Limits, i: nat)
    requires CoreSafe(s, l) && i in s.streams
    ensures var s' := CleanupStream(s, i); var c := s.streams[i].channel;
            Moves(s, s', i, c) && CoreSafe(s', l)
  {
    StreamBooks(s, l, i);
    CleanupMoves(s, i);
    CleanupBalanced(s, l, i);
    MovesSafe(s, CleanupStream(s, i), l, i, s.streams[i].channel);
  }

  lemma FlushHeadMoves(s: Server, i: nat)
    requires CanFlush(s, i) && s.streams[i].recvEnd == None
    ensures Moves(s, FlushHead(s, i).server, i, s.streams[i].channel)
  {
    var s' := FlushHead(s, i).server;
    forall j | j != i ensures PartOf(s', j) == PartOf(s, j) {
    }
    forall d | d != s.streams[i].channel ensures LaneOf(s', d) == LaneOf(s, d) {
    }
  }

  lemma FlushHeadBalanced(s: Server, l: Limits, i: nat)
    requires CanFlush(s, i) && Books(s, l, i) && ClosedApart(s)
    ensures var s' := FlushHead(s, i).server;
            i in s'.streams && s'.streams[i].channel == s.streams[i].channel
            && Balanced(s, s', l, i, s.streams[i].channel)
  {
    ConcatHead(s.streams[i].pending);
  }

  lemma FlushHeadSafe(s: Server, l: Limits, i: nat)
    requires CoreSafe(s, l) && CanFlush(s, i)
    ensures var s' := FlushHead(s, i).server; var c := s.streams[i].channel;
            i in s'.streams && s'.streams[i].channel == c && Moves(s, s', i, c) && CoreSafe(s', l)
  {
    StreamBooks(s, l, i);
    FlushHeadMoves(s, i);
    FlushHeadBalanced(s, l, i);
    MovesSafe(s, FlushHead(s, i).server, l, i, s.streams[i].channel);
  }

  lemma {:induction false} FlushSafe(s: Server, l: Limits, i: nat)
    requires CoreSafe(s, l) && i in s.streams
    ensures var s' := FlushPending(s, i).server; var c := s.streams[i].channel;
            i in s'.streams && Moves(s, s', i, c) && CoreSafe(s', l) && !CanFlush(s', i)
    decreases QueueLength(s, i)
  {
    if CanFlush(s, i) {
      var s1 := FlushHead(s, i).server;
      FlushHeadSafe(s, l, i);
      FlushSafe(s1, l, i);
      MovesTrans(s, s1, FlushPending(s1, i).server, i, s.streams[i].channel);
    }
  }

  ghost predicate Accepted(s: Server, l: Limits, i: nat, c: nat, seqNo: nat, flags: nat, payload: bytes) {
    i in s.streams && s.streams[i].channel == c && ReceiveData(s, l, i, c, seqNo, flags, payload).error == None
  }

  lemma AcceptMoves(s: Server, i: nat, c: nat, amount: nat)
    requires i in s.streams && s.streams[i].channel == c
    ensures Moves(s, AcceptData(s, i, c, amount), i, c)
  {
    var s' := AcceptData(s, i, c, amount);
    forall j | j != i ensures PartOf(s', j) == PartOf(s, j) {
    }
    forall d | d != c ensures LaneOf(s', d) == LaneOf(s, d) {
    }
  }

  lemma DeliverMoves(s: Server, i: nat, payload: bytes)
    requires i in s.streams && Deliverable(s.streams[i]) && s.streams[i].recvEnd == None
    ensures Moves(s, DeliverFrame(s, i, payload).server, i, s.streams[i].channel)
  {
    var s' := DeliverFrame(s, i, payload).server;
    forall j | j != i ensures PartOf(s', j) == PartOf(s, j) {
    }
    forall d | d != s.streams[i].channel ensures LaneOf(s', d) == LaneOf(s, d) {
    }
  }

  lemma EnqueueMoves(s: Server, l: Limits, i: nat, payload: bytes)
    requires i in s.streams
    ensures Moves(s, EnqueuePending(s, l, i, payload), i, s.streams[i].channel)
  {
    var s' := EnqueuePending(s, l, i, payload);
    forall j | j != i ensures PartOf(s', j) == PartOf(s, j) {
    }
    forall d | d != s.streams[i].channel ensures LaneOf(s', d) == LaneOf(s, d) {
    }
  }

  lemma DataMoves(s: Server, l: Limits, i: nat, c: nat, seqNo: nat, flags: nat, payload: bytes)
    requires Accepted(s, l, i, c, seqNo, flags, payload) && s.streams[i].recvEnd == None
    ensures Moves(s, ReceiveData(s, l, i, c, seqNo, flags, payload).server, i, c)
  {
    var s1 := AcceptData(s, i, c, |payload|);
    AcceptMoves(s, i, c, |payload|);
    if Deliverable(s.streams[i]) {
      DeliverMoves(s1, i, payload);
      MovesTrans(s, s1, DeliverFrame(s1, i, payload).server, i, c);
    } else {
      EnqueueMoves(s1, l, i, payload);
      MovesTrans(s, s1, EnqueuePending(s1, l, i, payload), i, c);
    }
  }

  /** Consumed but not yet accounted for: amount bytes of stream i are in nobody's window. */
  ghost predicate Owing(s: Server, s1: Server, l: Limits, i: nat, c: nat, amount: nat) {
    && Books(s, l, i) && ClosedApart(s) && c == s.streams[i].channel
    && s1 == AcceptData(s, i, c, amount)
    && ConsumeInbound(s.credit, i, c, ResponseBody, amount).ok
  }

  lemma DeliverBalanced(s: Server, s1: Server, l: Limits, i: nat, c: nat, payload: bytes)
    requires Owing(s, s1, l, i, c, |payload|) && Deliverable(s.streams[i])
    ensures Balanced(s, DeliverFrame(s1, i, payload).server, l, i, c)
  {
  }

  lemma OverflowBalanced(s: Server, s1: Server, l: Limits, i: nat, c: nat, payload: bytes)
    requires Owing(s, s1, l, i, c, |payload|) && Overflows(s1, l, i, |payload|)
    ensures Balanced(s, EnqueuePending(s1, l, i, payload), l, i, c)
  {
  }

  lemma QueueLive(s: Server, s1: Server, l: Limits, i: nat, c: nat, payload: bytes)
    requires Owing(s, s1, l, i, c, |payload|) && !Overflows(s1, l, i, |payload|)
    ensures var s' := EnqueuePending(s1, l, i, payload); LiveSafe(PartOf(s', i), l, s.dataChannels)
  {
    ConcatSnoc(s.streams[i].pending, payload);
    assert LiveSafe(PartOf(s, i), l, s.dataChannels);
  }

  lemma QueueBalanced(s: Server, s1: Server, l: Limits, i: nat, c: nat, payload: bytes)
    requires Owing(s, s1, l, i, c, |payload|) && !Overflows(s1, l, i, |payload|)
    ensures Balanced(s, EnqueuePending(s1, l, i, payload), l, i, c)
  {
    QueueLive(s, s1, l, i, c, payload);
    var s' := EnqueuePending(s1, l, i, payload);
    assert s'.streams.Keys == s.streams.Keys;
    assert s'.closed == s.closed;
  }

  lemma DataBalanced(s: Server, l: Limits, i: nat, c: nat, seqNo: nat, flags: nat, payload: bytes)
    requires Accepted(s, l, i, c, seqNo, flags, payload) && Books(s, l, i) && ClosedApart(s)
    ensures Balanced(s, ReceiveData(s, l, i, c, seqNo, flags, payload).server, l, i, c)
  {
    var s1 := AcceptData(s, i, c, |payload|);
    if Deliverable(s.streams[i]) {
      DeliverBalanced(s, s1, l, i, c, payload);
    } else {
      if Overflows(s1, l, i, |payload|) {
        OverflowBalanced(s, s1, l, i, c, payload);
      } else {
        QueueBalanced(s, s1, l, i, c, payload);
      }
    }
  }

  lemma DataSettles(s: Server, l: Limits, i: nat, c: nat, seqNo: nat, flags: nat, payload: bytes)
    requires Accepted(s, l, i, c, seqNo, flags, payload) && s.streams[i].recvEnd == None && Settled(PartOf(s, i))
    ensures Settled(PartOf(ReceiveData(s, l, i, c, seqNo, flags, payload).server, i))
  {
  }

  lemma OthersSettled(s: Server, s': Server, i: nat, c: nat)
    requires AllSettled(s) && Moves(s, s', i, c) && Settled(PartOf(s', i))
    ensures AllSettled(s')
  {
    forall j | j in s'.streams ensures Settled(PartOf(s', j)) {
      if j != i {
        assert PartOf(s', j) == PartOf(s, j);
      }
    }
  }

  lemma DataSafe(s: Server, l: Limits, i: nat, c: nat, seqNo: nat, flags: nat, payload: bytes)
    requires ServerSafe(s, l) && Accepted(s, l, i, c, seqNo, flags, payload)
    ensures var s' := ReceiveData(s, l, i, c, seqNo, flags, payload).server;
            ServerSafe(s', l) && Moves(s, s', i, c)
  {
    StreamBooks(s, l, i);
    DataMoves(s, l, i, c, seqNo, flags, payload);
    DataBalanced(s, l, i, c, seqNo, flags, payload);
    DataSettles(s, l, i, c, seqNo, flags, payload);
    var s' := ReceiveData(s, l, i, c, seqNo, flags, payload).server;
    MovesSafe(s, s', l, i, c);
    OthersSettled(s, s', i, c);
  }

  /** An accepted RESPONSE_END removes its stream in the same step. */
  lemma EndRemoves(s: Server, i: nat, c: nat, kind: DataKind, lastSeq: int)
    requires i in s.streams && ReceiveEnd(s, i, c, kind, lastSeq).error == None
    ensures i !in ReceiveEnd(s, i, c, kind, lastSeq).server.streams
    ensures ReceiveEnd(s, i, c, kind, lastSeq).server == CleanupStream(s, i)
  {
    var s1 := s.(streams := s.streams[i := s.streams[i].(recvEnd := Some(lastSeq))]);
    assert s1.streams - {i} == s.streams - {i};
  }

  lemma CleanupServerSafe(s: Server, l: Limits, i: nat)
    requires ServerSafe(s, l) && i in s.streams
    ensures ServerSafe(CleanupStream(s, i), l) && Moves(s, CleanupStream(s, i), i, s.streams[i].channel)
  {
    CleanupSafe(s, l, i);
    OthersSettled(s, CleanupStream(s, i), i, s.streams[i].channel);
  }

  /** A touch of stream i that the bookkeeping does not read: then a flush. */
  lemma TouchFlushSafe(s: Server, l: Limits, i: nat, st: ServerStream)
    requires ServerSafe(s, l) && i in s.streams
    requires st == s.streams[i].(started := st.started, room := st.room)
    ensures var s' := FlushPending(s.(streams := s.streams[i := st]), i).server;
            ServerSafe(s', l) && i in s'.streams && Moves(s, s', i, st.channel)
  {
    var s1 := s.(streams := s.streams[i := st]);
    var c := st.channel;
    StreamBooks(s, l, i);
    TouchMoves(s, i, st);
    TouchBalanced(s, l, i, st);
    MovesSafe(s, s1, l, i, c);
    FlushSafe(s1, l, i);
    var s' := FlushPending(s1, i).server;
    MovesTrans(s, s1, s', i, c);
    OthersSettled(s, s', i, c);
  }

  lemma TouchMoves(s: Server, i: nat, st: ServerStream)
    requires i in s.streams
    ensures Moves(s, s.(streams := s.streams[i := st]), i, st.channel)
  {
    var s' := s.(streams := s.streams[i := st]);
    forall j | j != i ensures PartOf(s', j) == PartOf(s, j) {
    }
  }

  lemma TouchBalanced(s: Server, l: Limits, i: nat, st: ServerStream)
    requires Books(s, l, i) && ClosedApart(s) && st == s.streams[i].(started := st.started, room := st.room)
    ensures Balanced(s, s.(streams := s.streams[i := st]), l, i, st.channel)
  {
  }

  /** A touch of stream i that the bookkeeping does not read. */
  lemma TouchSafe(s: Server, l: Limits, i: nat, st: ServerStream)
    requires CoreSafe(s, l) && i in s.streams && st == s.streams[i].(started := st.started, room := st.room)
    ensures CoreSafe(s.(streams := s.streams[i := st]), l)
  {
    StreamBooks(s, l, i);
    TouchMoves(s, i, st);
    TouchBalanced(s, l, i, st);
    MovesSafe(s, s.(streams := s.streams[i := st]), l, i, st.channel);
  }
}
