/** Against an honest server the client fails only on a frame of a stream whose tombstone it has
    already evicted; otherwise every step keeps ClientInv. */
module ClientHonest {
  import opened Protocol
  import opened CreditSpec
  import opened Frames
  import opened ServerSpec
  import opened ServerLogs
  import opened ServerLogOps
  import opened ClientSpec
  import opened ClientLogs
  import opened ClientOps
  import opened ClientSteps

  /** What an honest server guarantees about a frame it sends on channel c. */
  ghost predicate HonestDown(cl: Client, l: Limits, D: Logs, U: Logs, c: nat, f: Frame)
    requires |D| == |U|
  {
    && c < |D|
    && |Payload(D[c] + [f])| <= l.channelCreditBytes + ChannelGrants(U[c])
    && ChannelGrants(D[c] + [f]) <= |Payload(U[c])|
    && (f.ChannelCredit? || (
          var i := f.streamId;
          && (i in cl.homes ==> cl.homes[i] == c)
          && DownNext(Proj(D[c], i), f)
          && |Payload(Proj(D[c], i) + [f])| <= l.streamCreditBytes + StreamGrants(Proj(U[c], i))
          && StreamGrants(Proj(D[c], i) + [f]) <= |Payload(Proj(U[c], i))|))
  }

  /** The frame belongs to a stream this client has closed and no longer remembers. */
  predicate Evicted(cl: Client, f: Frame) {
    && !f.ChannelCredit? && !f.StreamCredit?
    && f.streamId in cl.homes && f.streamId !in cl.streams && f.streamId !in cl.closed
  }

  ghost predicate CHandled(r: ClientReply, l: Limits, D: Logs, U: Logs, c: nat, f: Frame) {
    r.error == None && r.channel == c && |D| == |U| && c < |D| && ClientInv(r.client, l, Put(D, c, [f]), Put(U, c, r.out))
  }

  lemma KnownOrFirst(cl: Client, l: Limits, D: Logs, U: Logs, c: nat, f: Frame)
    requires ClientInv(cl, l, D, U) && HonestDown(cl, l, D, U, c, f) && !f.ChannelCredit?
    ensures f.RequestStart? <==> f.streamId !in cl.homes
    ensures f.streamId !in cl.homes ==> Proj(D[c], f.streamId) == [] && Proj(U[c], f.streamId) == []
  {
    var i := f.streamId;
    if i in cl.homes {
      assert CPartLog(CPartOf(cl, i), l, Proj(D[c], i), Proj(U[c], i));
    } else {
      assert CHomeLog(D[c], cl.homes, c) && CHomeLog(U[c], cl.homes, c);
      NoFrames(D[c], i);
      NoFrames(U[c], i);
    }
  }

  // ----- frames of a known stream, one kind at a time -----

  lemma CStaleStep(cl: Client, l: Limits, D: Logs, U: Logs, i: nat, c: nat, f: Frame)
    requires CNear(cl, l, D, U, i, c) && Of(f, i) && i !in cl.streams && DownNext(Proj(D[c], i), f)
    ensures CLogStep(cl, cl.(stale := Bump(cl.stale, c, DataBytes(f))), l, D, U, i, c, [f], [])
  {
    var cl' := cl.(stale := Bump(cl.stale, c, DataBytes(f)));
    StaleDid(cl, i, c, DataBytes(f));
    CGoneReceives(CPartOf(cl, i), CPartOf(cl', i), l, f, Proj(D[c], i), Proj(U[c], i));
    CLaneReceives(CLaneOf(cl, c), CLaneOf(cl', c), l, f, D[c], U[c]);
    ProjSnoc(D[c], f, i);
    PutNothing(U, c);
  }

  lemma CCreditStep(cl: Client, l: Limits, D: Logs, U: Logs, i: nat, c: nat, f: Frame)
    requires CNear(cl, l, D, U, i, c) && Of(f, i) && f.StreamCredit? && f.kind == ResponseBody
    requires StreamGrants(Proj(D[c], i) + [f]) <= |Payload(Proj(U[c], i))|
    ensures CLogStep(cl, cl.(credit := ApplyStream(cl.credit, i, f.kind, f.amount)), l, D, U, i, c, [f], [])
  {
    var cl' := cl.(credit := ApplyStream(cl.credit, i, f.kind, f.amount));
    CreditDid(cl, i, c, f.amount);
    CCreditPart(CPartOf(cl, i), CPartOf(cl', i), l, f, Proj(D[c], i), Proj(U[c], i));
    CLaneReceives(CLaneOf(cl, c), CLaneOf(cl', c), l, f, D[c], U[c]);
    ProjSnoc(D[c], f, i);
    PutNothing(U, c);
  }

  lemma CAbortedStep(cl: Client, l: Limits, D: Logs, U: Logs, i: nat, c: nat, f: Frame)
    requires CNear(cl, l, D, U, i, c) && f.RequestAbort? && f.streamId == i && DownNext(Proj(D[c], i), f)
    ensures CLogStep(cl, CleanupClient(cl, i), l, D, U, i, c, [f], [])
  {
    var cl' := CleanupClient(cl, i);
    CleanupDid(cl, i, c);
    CGoneReceives(CPartOf(cl, i), CPartOf(cl', i), l, f, Proj(D[c], i), Proj(U[c], i));
    CLaneReceives(CLaneOf(cl, c), CLaneOf(cl', c), l, f, D[c], U[c]);
    ProjSnoc(D[c], f, i);
    PutNothing(U, c);
  }

  lemma NotBusyNothingHeld(cl: Client, i: nat, c: nat)
    requires At(cl, i, c) && c !in cl.busy
    ensures CPartOf(cl, i).held == []
  {
  }

  /** The writer of a live stream is open until the one REQUEST_END of an honest server. */
  lemma NotEndedNotClosed(p: CPart, l: Limits, f: Frame, recvd: seq<Frame>, sent: seq<Frame>)
    requires CPartLog(p, l, recvd, sent) && p.stream.Some? && f.RequestEnd? && DownNext(recvd, f)
    ensures !p.writerClosed && f.kind == RequestBody && f.lastSeq == p.stream.value.recvNext - 1
  {
  }

  lemma CCloseStep(cl: Client, l: Limits, D: Logs, U: Logs, i: nat, c: nat, f: Frame)
    requires CNear(cl, l, D, U, i, c) && f.RequestEnd? && f.streamId == i && DownNext(Proj(D[c], i), f)
    requires i in cl.streams && c !in cl.busy
    ensures var r := ReceiveRequestEnd(cl, i, c, f.kind, f.lastSeq);
            r.error == None && r.out == [] && r.channel == c && CLogStep(cl, r.client, l, D, U, i, c, [f], [])
  {
    var r := ReceiveRequestEnd(cl, i, c, f.kind, f.lastSeq);
    NotEndedNotClosed(CPartOf(cl, i), l, f, Proj(D[c], i), Proj(U[c], i));
    CloseDid(cl, i, c, f);
    NotBusyNothingHeld(cl, i, c);
    CCloseWriterPart(CPartOf(cl, i), CPartOf(r.client, i), l, f, Proj(D[c], i), Proj(U[c], i));
    CLaneReceives(CLaneOf(cl, c), CLaneOf(r.client, c), l, f, D[c], U[c]);
    ProjSnoc(D[c], f, i);
    PutNothing(U, c);
  }

  lemma HonestPasses(cl: Client, l: Limits, D: Logs, U: Logs, i: nat, c: nat, f: Frame)
    requires CNear(cl, l, D, U, i, c) && f.RequestData? && f.streamId == i && HonestDown(cl, l, D, U, c, f)
    requires i in cl.streams && c !in cl.busy
    ensures Passes(cl, i, c, f)
  {
    Snoc(Proj(D[c], i), f);
    Snoc(D[c], f);
    assert CPartOf(cl, i).inCredit >= |f.payload|;
    assert CLaneOf(cl, c).inCredit >= |f.payload|;
  }

  lemma CDataStep(cl: Client, l: Limits, D: Logs, U: Logs, i: nat, c: nat, f: Frame)
    requires CNear(cl, l, D, U, i, c) && Passes(cl, i, c, f) && DownNext(Proj(D[c], i), f) && cl.streams[i].hasBody
    ensures var r := ReceiveRequestData(cl, i, c, f.seqNo, f.flags, f.payload);
            r.error == None && r.channel == c && CLogStep(cl, r.client, l, D, U, i, c, [f], r.out)
  {
    var r := ReceiveRequestData(cl, i, c, f.seqNo, f.flags, f.payload);
    DataDid(cl, i, c, f);
    NotBusyNothingHeld(cl, i, c);
    CDataPart(CPartOf(cl, i), CPartOf(r.client, i), l, f, Proj(D[c], i), Proj(U[c], i));
    CInStep(cl, r.client, l, D, U, i, c, f, CPartOf(r.client, i), CLaneOf(r.client, c));
  }

  /** Receiving f on channel c moves its windows as CLaneReceives says. */
  ghost predicate LaneTakes(a: CLane, a': CLane, f: Frame) {
    && !f.ChannelCredit? && a'.outCredit == a.outCredit && a'.stale == a.stale && a'.inCredit + DataBytes(f) == a.inCredit
    && a'.held + a'.lost == a.held + a.lost + DataBytes(f)
  }

  lemma LaneTaken(a: CLane, a': CLane, l: Limits, i: nat, f: Frame, recvd: seq<Frame>, sent: seq<Frame>)
    requires CLaneLog(a, l, recvd, sent) && LaneTakes(a, a', f)
    ensures CLaneLog(a', l, recvd + [f], sent) && CLaneLog(a', l, recvd + [f], sent + [ResponseAbort(i)])
  {
    CLaneReceives(a, a', l, f, recvd, sent);
    CLaneAborts(a', l, i, recvd + [f], sent);
  }

  /** A step that receives f and sends nothing. */
  lemma CInStep(cl: Client, cl': Client, l: Limits, D: Logs, U: Logs, i: nat, c: nat, f: Frame, p': CPart, a': CLane)
    requires |D| == |U| && c < |D| && i in cl.homes && cl.homes[i] == c && CLaneLog(CLaneOf(cl, c), l, D[c], U[c])
    requires Did(cl, cl', i, c, p', a') && p'.home == Some(c) && Of(f, i) && LaneTakes(CLaneOf(cl, c), a', f)
    requires CPartLog(p', l, Proj(D[c], i) + [f], Proj(U[c], i))
    ensures CLogStep(cl, cl', l, D, U, i, c, [f], [])
  {
    LaneTaken(CLaneOf(cl, c), a', l, i, f, D[c], U[c]);
    ProjSnoc(D[c], f, i);
    PutNothing(U, c);
    Assemble(cl, cl', l, D, U, i, c, [f], [], p', a');
  }

  /** A step that receives f and answers with an abort. */
  lemma CInAbortStep(cl: Client, cl': Client, l: Limits, D: Logs, U: Logs, i: nat, c: nat, f: Frame, p': CPart, a': CLane)
    requires |D| == |U| && c < |D| && i in cl.homes && cl.homes[i] == c && CLaneLog(CLaneOf(cl, c), l, D[c], U[c])
    requires Did(cl, cl', i, c, p', a') && p'.home == Some(c) && Of(f, i) && LaneTakes(CLaneOf(cl, c), a', f)
    requires CPartLog(p', l, Proj(D[c], i) + [f], Proj(U[c], i) + [ResponseAbort(i)])
    ensures CLogStep(cl, cl', l, D, U, i, c, [f], [ResponseAbort(i)])
  {
    LaneTaken(CLaneOf(cl, c), a', l, i, f, D[c], U[c]);
    ProjSnoc(D[c], f, i);
    ProjSnoc(U[c], ResponseAbort(i), i);
    Assemble(cl, cl', l, D, U, i, c, [f], [ResponseAbort(i)], p', a');
  }

  lemma CRefuseStep(cl: Client, l: Limits, D: Logs, U: Logs, i: nat, c: nat, f: Frame)
    requires CNear(cl, l, D, U, i, c) && Passes(cl, i, c, f) && DownNext(Proj(D[c], i), f) && !cl.streams[i].hasBody
    ensures var r := ReceiveRequestData(cl, i, c, f.seqNo, f.flags, f.payload);
            r.error == None && r.channel == c && CLogStep(cl, r.client, l, D, U, i, c, [f], r.out)
  {
    RefuseReply(cl, i, c, f);
    RefuseDid(cl, i, c, |f.payload|);
    var cl' := CleanupClient(Refused(cl, i, c, |f.payload|), i);
    var p' := Gone(CPartOf(cl, i), cl', i);
    CRefusePart(CPartOf(cl, i), p', l, i, f, Proj(D[c], i), Proj(U[c], i));
    CInAbortStep(cl, cl', l, D, U, i, c, f, p', CLaneOf(cl', c));
  }

  lemma CStartStep(cl: Client, l: Limits, D: Logs, U: Logs, i: nat, c: nat, f: Frame)
    requires CIds(cl) && |D| == |U| && c < |D| && f.RequestStart? && f.streamId == i && i !in cl.homes
    requires CPartLog(CPartOf(cl, i), l, [], []) && CLaneLog(CLaneOf(cl, c), l, D[c], U[c])
    requires Proj(D[c], i) == [] && Proj(U[c], i) == []
    ensures var r := StartRequest(cl, l, c, i, f.hasBody);
            r.error == None && r.out == [] && r.channel == c && CLogStep(cl, r.client, l, D, U, i, c, [f], [])
  {
    var r := StartRequest(cl, l, c, i, f.hasBody);
    assert CPartOf(cl, i).stream.None?;
    StartDid(cl, l, i, c, f.hasBody);
    CStartPart(CPartOf(cl, i), CPartOf(r.client, i), l, i, c, f.hasBody);
    CLaneReceives(CLaneOf(cl, c), CLaneOf(r.client, c), l, f, D[c], U[c]);
    ProjSnoc(D[c], f, i);
    PutNothing(U, c);
  }

  lemma CStarted(cl: Client, l: Limits, D: Logs, U: Logs, i: nat, c: nat, f: Frame)
    requires ClientInv(cl, l, D, U) && f.RequestStart? && f.streamId == i && i !in cl.homes && c < |D|
    requires Proj(D[c], i) == [] && Proj(U[c], i) == []
    ensures CHandled(StartRequest(cl, l, c, i, f.hasBody), l, D, U, c, f)
  {
    assert CPartLog(CPartOf(cl, i), l, [], []);
    CStartStep(cl, l, D, U, i, c, f);
    CLogStepInv(cl, StartRequest(cl, l, c, i, f.hasBody).client, l, D, U, i, c, [f], []);
  }

  lemma CChannelLane(a: CLane, a': CLane, l: Limits, f: Frame, recvd: seq<Frame>, sent: seq<Frame>)
    requires CLaneLog(a, l, recvd, sent) && f.ChannelCredit? && IsTunnelLimits(l)
    requires ChannelGrants(recvd + [f]) <= |Payload(sent)|
    requires a' == a.(outCredit := AddCredit(a.outCredit, f.amount))
    ensures CLaneLog(a', l, recvd + [f], sent)
    ensures a'.outCredit == a.outCredit + f.amount
  {
    Snoc(recvd, f);
  }

  lemma CChannelCredit(cl: Client, l: Limits, D: Logs, U: Logs, c: nat, f: Frame)
    requires ClientInv(cl, l, D, U) && f.ChannelCredit? && c < |D| && ChannelGrants(D[c] + [f]) <= |Payload(U[c])|
    ensures ClientInv(cl.(credit := ApplyChannel(cl.credit, c, f.amount)), l, Put(D, c, [f]), U)
  {
    var cl' := cl.(credit := ApplyChannel(cl.credit, c, f.amount));
    CChannelParts(cl, c, f.amount);
    CChannelMoves(cl, c, f.amount);
    CChannelStreams(cl, cl', l, D, U, c, f);
    CChannelLanes(cl, cl', l, D, U, c, f);
    CChannelHomes(cl, cl', D, U, c, f);
  }

  lemma CChannelParts(cl: Client, c: nat, amount: nat)
    ensures forall i :: CPartOf(cl.(credit := ApplyChannel(cl.credit, c, amount)), i) == CPartOf(cl, i)
  {
  }

  lemma CChannelMoves(cl: Client, c: nat, amount: nat)
    ensures var cl' := cl.(credit := ApplyChannel(cl.credit, c, amount));
            && CLaneOf(cl', c) == CLaneOf(cl, c).(outCredit := AddCredit(CLaneOf(cl, c).outCredit, amount))
            && forall d :: d != c ==> CLaneOf(cl', d) == CLaneOf(cl, d)
  {
  }

  lemma CChannelHomes(cl: Client, cl': Client, D: Logs, U: Logs, c: nat, f: Frame)
    requires |D| == |U| && c < |D| && CHomesLog(cl, D, U) && CIds(cl) && f.ChannelCredit?
    requires cl' == cl.(credit := cl'.credit)
    ensures CHomesLog(cl', Put(D, c, [f]), U) && CIds(cl')
  {
    var D' := Put(D, c, [f]);
    forall d | 0 <= d < |D'| ensures CHomeLog(D'[d], cl'.homes, d) && CHomeLog(U[d], cl'.homes, d) {
      assert CHomeLog(D[d], cl.homes, d) && CHomeLog(U[d], cl.homes, d);
    }
  }

  lemma CChannelLanes(cl: Client, cl': Client, l: Limits, D: Logs, U: Logs, c: nat, f: Frame)
    requires |D| == |U| && c < |D| && CLanesLog(cl, l, D, U) && f.ChannelCredit? && IsTunnelLimits(l)
    requires ChannelGrants(D[c] + [f]) <= |Payload(U[c])|
    requires CLaneOf(cl', c) == CLaneOf(cl, c).(outCredit := AddCredit(CLaneOf(cl, c).outCredit, f.amount))
    requires forall d :: d != c ==> CLaneOf(cl', d) == CLaneOf(cl, d)
    ensures CLanesLog(cl', l, Put(D, c, [f]), U)
  {
    var D' := Put(D, c, [f]);
    forall d | 0 <= d < |D'| ensures CLaneLog(CLaneOf(cl', d), l, D'[d], U[d]) {
      if d == c {
        CChannelLane(CLaneOf(cl, c), CLaneOf(cl', c), l, f, D[c], U[c]);
      } else {
        assert CLaneOf(cl', d) == CLaneOf(cl, d);
      }
    }
  }

  lemma CChannelStreams(cl: Client, cl': Client, l: Limits, D: Logs, U: Logs, c: nat, f: Frame)
    requires |D| == |U| && c < |D| && CStreamsLog(cl, l, D, U) && f.ChannelCredit?
    requires cl'.homes == cl.homes && forall i :: CPartOf(cl', i) == CPartOf(cl, i)
    ensures CStreamsLog(cl', l, Put(D, c, [f]), U)
  {
    var D' := Put(D, c, [f]);
    forall i | i in cl'.homes
      ensures cl'.homes[i] < |D'| && CPartLog(CPartOf(cl', i), l, Proj(D'[cl'.homes[i]], i), Proj(U[cl'.homes[i]], i))
    {
      var h := cl.homes[i];
      assert CPartOf(cl', i) == CPartOf(cl, i);
      ProjSnoc(D[c], f, i);
      assert Proj(D'[h], i) == Proj(D[h], i);
      assert CPartLog(CPartOf(cl, i), l, Proj(D[h], i), Proj(U[h], i));
    }
    forall i | i !in cl'.homes ensures CPartLog(CPartOf(cl', i), l, [], []) {
      assert CPartOf(cl', i) == CPartOf(cl, i);
    }
  }

  // ----- one frame -----

  lemma CDispatch(cl: Client, l: Limits, D: Logs, U: Logs, i: nat, c: nat, f: Frame)
    requires CNear(cl, l, D, U, i, c) && HonestDown(cl, l, D, U, c, f) && c !in cl.busy
    requires Of(f, i) && i in cl.streams && !f.RequestStart? && !f.StreamCredit?
    ensures var r := DispatchRequestFrame(cl, c, f);
            r.error == None && r.channel == c && CLogStep(cl, r.client, l, D, U, i, c, [f], r.out)
  {
    match f
    case RequestData(_, _, _, _) =>
      HonestPasses(cl, l, D, U, i, c, f);
      if cl.streams[i].hasBody {
        CDataStep(cl, l, D, U, i, c, f);
      } else {
        CRefuseStep(cl, l, D, U, i, c, f);
      }
    case RequestEnd(_, _, _) => CCloseStep(cl, l, D, U, i, c, f);
    case RequestAbort(_) => CAbortedStep(cl, l, D, U, i, c, f);
    case _ =>
  }

  lemma CKnown(cl: Client, l: Limits, D: Logs, U: Logs, i: nat, c: nat, f: Frame)
    requires CNear(cl, l, D, U, i, c) && HonestDown(cl, l, D, U, c, f) && c !in cl.busy
    requires Of(f, i) && !f.RequestStart? && (f.StreamCredit? || i in cl.closed || i in cl.streams)
    ensures var r := ReceiveFrame(cl, l, c, f);
            r.error == None && r.channel == c && CLogStep(cl, r.client, l, D, U, i, c, [f], r.out)
  {
    if f.StreamCredit? {
      CCreditStep(cl, l, D, U, i, c, f);
    } else if i in cl.closed {
      CStaleStep(cl, l, D, U, i, c, f);
    } else {
      assert CPartOf(cl, i).stream.Some?;
      CDispatch(cl, l, D, U, i, c, f);
    }
  }

  /** The frame at the head of a channel fails the connection exactly when its tombstone is gone. */
  lemma ClientReceives(cl: Client, l: Limits, D: Logs, U: Logs, c: nat, f: Frame)
    requires ClientInv(cl, l, D, U) && HonestDown(cl, l, D, U, c, f) && c !in cl.busy
    ensures var r := ReceiveFrame(cl, l, c, f);
            if Evicted(cl, f) then r.error == Some(UnknownStream) else CHandled(r, l, D, U, c, f)
  {
    var r := ReceiveFrame(cl, l, c, f);
    if f.ChannelCredit? {
      CChannelCredit(cl, l, D, U, c, f);
      PutNothing(U, c);
    } else {
      KnownOrFirst(cl, l, D, U, c, f);
      var i := f.streamId;
      if f.RequestStart? {
        assert i !in cl.closed;
        CStarted(cl, l, D, U, i, c, f);
      } else if !Evicted(cl, f) {
        CNearInv(cl, l, D, U, i);
        CKnown(cl, l, D, U, i, c, f);
        CLogStepInv(cl, r.client, l, D, U, i, c, [f], r.out);
      }
    }
  }
}
