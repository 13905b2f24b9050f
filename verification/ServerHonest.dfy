/** Against an honest client the server never fails, and its logs stay in step with its state. */
module ServerHonest {
  import opened Protocol
  import opened CreditSpec
  import opened Frames
  import opened ServerSpec
  import opened ServerSafety
  import opened ServerOps
  import opened ServerTheorems
  import opened ServerLogs
  import opened ServerLogOps

  ghost predicate ServerInv(s: Server, l: Limits, D: Logs, U: Logs) {
    ServerSafe(s, l) && ServerLog(s, l, D, U)
  }

  /** An honest data frame for a live stream passes every check. */
  lemma HonestData(s: Server, l: Limits, D: Logs, U: Logs, i: nat, c: nat, f: Frame)
    requires Near(s, l, D, U, i, c) && Books(s, l, i) && Settled(PartOf(s, i))
    requires f.ResponseData? && f.streamId == i && HonestUp(s, l, D, U, c, f)
    ensures DataReady(s, l, i, c, f)
  {
    Snoc(Proj(U[c], i), f);
    Snoc(U[c], f);
    assert Get(s.credit.inStream, Key(i, ResponseBody)) >= |f.payload|;
    assert LaneOf(s, c).inCredit >= |f.payload|;
  }

  lemma HonestDataLog(s: Server, l: Limits, D: Logs, U: Logs, i: nat, c: nat, f: Frame)
    requires ServerInv(s, l, D, U) && HonestUp(s, l, D, U, c, f) && f.ResponseData? && f.streamId == i && i in s.streams
    ensures var r := ReceiveData(s, l, i, c, f.seqNo, f.flags, f.payload);
            r.error == None && r.channel == c && s.streams[i].channel == c && ServerLog(r.server, l, Put(D, c, r.out), Put(U, c, [f]))
  {
    NearLog(s, l, D, U, i);
    HonestData(s, l, D, U, i, c, f);
    var r := ReceiveData(s, l, i, c, f.seqNo, f.flags, f.payload);
    if Deliverable(s.streams[i]) {
      DataDeliverEffect(s, l, i, c, f);
      DataDeliverStep(s, l, D, U, i, c, f);
    } else if Overflows(AcceptData(s, i, c, |f.payload|), l, i, |f.payload|) {
      DataOverflowEffect(s, l, i, c, f);
      DataOverflowStep(s, l, D, U, i, c, f);
    } else {
      DataQueueEffect(s, l, i, c, f);
      DataQueueStep(s, l, D, U, i, c, f);
    }
    LogStepLog(s, r.server, l, D, U, i, c, r.out, [f]);
  }

  lemma HonestStartLog(s: Server, l: Limits, D: Logs, U: Logs, i: nat, c: nat, f: Frame)
    requires ServerInv(s, l, D, U) && f.ResponseStart? && f.streamId == i && i in s.streams && s.streams[i].channel == c
    ensures var r := FlushPending(MarkStarted(s, i), i);
            r.channel == c < |D| && ServerLog(r.server, l, Put(D, c, r.out), Put(U, c, [f]))
  {
    NearLog(s, l, D, U, i);
    var st := s.streams[i].(started := true);
    var s1 := s.(streams := s.streams[i := st]);
    StartStep(s, l, D, U, i, c, f);
    LogStepLog(s, s1, l, D, U, i, c, [], [f]);
    PutNothing(D, c);
    TouchSafe(s, l, i, st);
    FlushLog(s1, l, D, Put(U, c, [f]), i);
  }

  lemma RoomLog(s: Server, l: Limits, D: Logs, U: Logs, i: nat, room: nat)
    requires ServerInv(s, l, D, U) && i in s.streams
    ensures var r := FlushPending(WithRoom(s, i, room), i);
            r.channel < |D| && ServerLog(r.server, l, Put(D, r.channel, r.out), U)
  {
    NearLog(s, l, D, U, i);
    var c := s.streams[i].channel;
    var st := s.streams[i].(room := Some(room));
    var s1 := s.(streams := s.streams[i := st]);
    TouchStep(s, l, D, U, i, c, room);
    LogStepLog(s, s1, l, D, U, i, c, [], []);
    PutNothing(D, c);
    PutNothing(U, c);
    TouchSafe(s, l, i, st);
    FlushLog(s1, l, D, U, i);
  }

  lemma HonestRemoveLog(s: Server, l: Limits, D: Logs, U: Logs, i: nat, c: nat, f: Frame)
    requires ServerInv(s, l, D, U) && Of(f, i) && !IsData(f) && i in s.streams && s.streams[i].channel == c
    ensures c < |D| && ServerLog(CleanupStream(s, i), l, D, Put(U, c, [f]))
  {
    NearLog(s, l, D, U, i);
    RemoveStep(s, l, D, U, i, c, f);
    LogStepLog(s, CleanupStream(s, i), l, D, U, i, c, [], [f]);
    PutNothing(D, c);
  }

  lemma HonestQuietLog(s: Server, l: Limits, D: Logs, U: Logs, c: nat, f: Frame)
    requires ServerInv(s, l, D, U) && HonestUp(s, l, D, U, c, f)
    requires f.StreamCredit? || (!f.ChannelCredit? && f.streamId !in s.streams)
    ensures var r := Receive(s, l, c, f);
            r.error == None && r.channel == c && r.out == [] && ServerLog(r.server, l, D, Put(U, c, [f]))
  {
    var i := f.streamId;
    NearLog(s, l, D, U, i);
    var r := Receive(s, l, c, f);
    if f.StreamCredit? {
      StreamCreditStep(s, l, D, U, i, c, f);
    } else {
      StaleStep(s, l, D, U, i, c, f);
    }
    LogStepLog(s, r.server, l, D, U, i, c, [], [f]);
    PutNothing(D, c);
  }

  lemma HonestEnd(s: Server, l: Limits, D: Logs, U: Logs, i: nat, c: nat, f: Frame)
    requires Near(s, l, D, U, i, c) && HonestUp(s, l, D, U, c, f) && f.ResponseEnd? && f.streamId == i && i in s.streams
    ensures ReceiveEnd(s, i, c, f.kind, f.lastSeq).error == None
  {
  }

  /** What handling an honest frame of a live stream comes to. */
  ghost predicate Handled(r: Reply, l: Limits, D: Logs, U: Logs, c: nat, f: Frame) {
    r.error == None && r.channel == c && |D| == |U| && c < |D| && ServerLog(r.server, l, Put(D, c, r.out), Put(U, c, [f]))
  }

  lemma StartHandled(s: Server, l: Limits, D: Logs, U: Logs, i: nat, c: nat, f: Frame, r: Reply)
    requires ServerInv(s, l, D, U) && f.ResponseStart? && f.streamId == i && i in s.streams && s.streams[i].channel == c
    requires r == FlushPending(MarkStarted(s, i), i)
    ensures Handled(r, l, D, U, c, f)
  {
    HonestStartLog(s, l, D, U, i, c, f);
    FlushNeverFails(MarkStarted(s, i), i);
  }

  lemma RemoveHandled(s: Server, l: Limits, D: Logs, U: Logs, i: nat, c: nat, f: Frame, r: Reply)
    requires ServerInv(s, l, D, U) && Of(f, i) && !IsData(f) && i in s.streams && s.streams[i].channel == c
    requires r == Reply(CleanupStream(s, i), c, [], None)
    ensures Handled(r, l, D, U, c, f)
  {
    HonestRemoveLog(s, l, D, U, i, c, f);
    PutNothing(D, c);
  }

  lemma EndReply(s: Server, i: nat, c: nat, kind: DataKind, lastSeq: int)
    requires i in s.streams && ReceiveEnd(s, i, c, kind, lastSeq).error == None
    ensures ReceiveEnd(s, i, c, kind, lastSeq) == Reply(CleanupStream(s, i), c, [], None)
  {
    EndRemoves(s, i, c, kind, lastSeq);
  }

  lemma EndAccepted(s: Server, l: Limits, D: Logs, U: Logs, i: nat, c: nat, f: Frame)
    requires ServerInv(s, l, D, U) && HonestUp(s, l, D, U, c, f) && f.ResponseEnd? && f.streamId == i && i in s.streams
    ensures ReceiveEnd(s, i, c, f.kind, f.lastSeq).error == None
  {
    NearLog(s, l, D, U, i);
    HonestEnd(s, l, D, U, i, c, f);
  }

  lemma HonestDispatch(s: Server, l: Limits, D: Logs, U: Logs, i: nat, c: nat, f: Frame)
    requires ServerInv(s, l, D, U) && HonestUp(s, l, D, U, c, f) && Of(f, i) && !f.StreamCredit? && i in s.streams
    requires s.streams[i].channel == c
    ensures Handled(DispatchStreamFrame(s, l, c, f), l, D, U, c, f)
  {
    var r := DispatchStreamFrame(s, l, c, f);
    match f
    case ResponseStart(_, _) => StartHandled(s, l, D, U, i, c, f, r);
    case ResponseData(_, _, _, _) => HonestDataLog(s, l, D, U, i, c, f);
    case ResponseEnd(_, _, _) =>
      EndAccepted(s, l, D, U, i, c, f);
      EndReply(s, i, c, f.kind, f.lastSeq);
      RemoveHandled(s, l, D, U, i, c, f, r);
    case ResponseAbort(_) => RemoveHandled(s, l, D, U, i, c, f, r);
    case _ =>
  }

  lemma HonestReceiveLog(s: Server, l: Limits, D: Logs, U: Logs, c: nat, f: Frame)
    requires ServerInv(s, l, D, U) && HonestUp(s, l, D, U, c, f)
    ensures var r := Receive(s, l, c, f);
            r.error == None && r.channel == c && ServerLog(r.server, l, Put(D, c, r.out), Put(U, c, [f]))
  {
    PutNothing(D, c);
    if f.ChannelCredit? {
      ChannelCreditLog(s, l, D, U, c, f);
    } else if f.StreamCredit? || f.streamId !in s.streams {
      HonestQuietLog(s, l, D, U, c, f);
    } else {
      NearLog(s, l, D, U, f.streamId);
      HonestDispatch(s, l, D, U, f.streamId, c, f);
    }
  }

  /** No protocol-error branch is reached, and both logs stay explained by the state. */
  lemma HonestReceive(s: Server, l: Limits, D: Logs, U: Logs, c: nat, f: Frame)
    requires ServerInv(s, l, D, U) && HonestUp(s, l, D, U, c, f)
    ensures var r := Receive(s, l, c, f);
            r.error == None && r.channel == c && ServerInv(r.server, l, Put(D, c, r.out), Put(U, c, [f]))
  {
    HonestReceiveLog(s, l, D, U, c, f);
    ReceiveSafe(s, l, c, f);
  }
}
