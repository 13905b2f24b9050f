/** Main results about the server alone: every step keeps ServerSafe, for any frames. */
module ServerTheorems {
  import opened Protocol
  import opened CreditSpec
  import opened ServerSpec
  import opened ServerSafety
  import opened ServerOps

  /** s' is s with another pump for stream i and other outbound windows. */
  ghost predicate PumpOnly(s: Server, s': Server, i: nat) {
    && i in s.pumps && i in s'.pumps && s'.pumps[i].channel == s.pumps[i].channel
    && s' == s.(pumps := s.pumps[i := s'.pumps[i]],
                credit := s.credit.(outStream := s'.credit.outStream, outChannel := s'.credit.outChannel))
    && (forall j :: j != i ==> Get(s'.credit.outStream, Key(j, RequestBody)) == Get(s.credit.outStream, Key(j, RequestBody)))
    && (forall d :: d != s.pumps[i].channel ==> Get(s'.credit.outChannel, d) == Get(s.credit.outChannel, d))
  }

  lemma PumpOnlyMoves(s: Server, s': Server, i: nat)
    requires PumpOnly(s, s', i)
    ensures Moves(s, s', i, s.pumps[i].channel)
  {
    forall j | j != i ensures PartOf(s', j) == PartOf(s, j) {
    }
  }

  lemma PumpOnlySafe(s: Server, s': Server, l: Limits, i: nat)
    requires ServerSafe(s, l) && PumpOnly(s, s', i)
    ensures ServerSafe(s', l) && Moves(s, s', i, s.pumps[i].channel)
  {
    PumpOnlyMoves(s, s', i);
    if i in s.streams {
      assert LiveSafe(PartOf(s, i), l, s.dataChannels);
      assert Settled(PartOf(s, i));
    }
    assert Balanced(s, s', l, i, s.pumps[i].channel);
    MovesSafe(s, s', l, i, s.pumps[i].channel);
    OthersSettled(s, s', i, s.pumps[i].channel);
  }

  lemma OpenParts(s: Server, l: Limits, hasBody: bool, j: nat)
    requires s.dataChannels > 0 && j != s.nextStreamId
    ensures PartOf(OpenStream(s, l, hasBody).server, j) == PartOf(s, j)
  {
  }

  lemma OpenHeld(s: Server, l: Limits, hasBody: bool, sel: Option<nat>)
    requires s.dataChannels > 0 && s.nextStreamId !in s.streams
    ensures var s' := OpenStream(s, l, hasBody).server;
            HeldSum(s'.streams, sel, s'.nextStreamId) == HeldSum(s.streams, sel, s.nextStreamId)
  {
    var s' := OpenStream(s, l, hasBody).server;
    forall j | 0 <= j < s.nextStreamId ensures Held(s'.streams, sel, j) == Held(s.streams, sel, j) {
    }
    HeldSumSame(s.streams, s'.streams, sel, s.nextStreamId);
  }

  lemma OpenIds(s: Server, l: Limits, hasBody: bool)
    requires IdsSafe(s)
    ensures IdsSafe(OpenStream(s, l, hasBody).server)
  {
  }

  lemma OpenStreamsSafe(s: Server, l: Limits, hasBody: bool)
    requires IdsSafe(s) && StreamsSafe(s, l)
    ensures StreamsSafe(OpenStream(s, l, hasBody).server, l)
  {
    var s' := OpenStream(s, l, hasBody).server;
    var i := s.nextStreamId;
    assert LiveSafe(PartOf(s', i), l, s'.dataChannels);
    forall j | j in s'.streams ensures LiveSafe(PartOf(s', j), l, s'.dataChannels) {
      if j != i {
        OpenParts(s, l, hasBody, j);
      }
    }
    forall j | j !in s'.pumps ensures PartOf(s', j).delivered == [] {
      OpenParts(s, l, hasBody, j);
    }
  }

  lemma OpenSafe(s: Server, l: Limits, hasBody: bool)
    requires ServerSafe(s, l)
    ensures ServerSafe(OpenStream(s, l, hasBody).server, l)
  {
    var s' := OpenStream(s, l, hasBody).server;
    OpenIds(s, l, hasBody);
    OpenStreamsSafe(s, l, hasBody);
    OpenHeld(s, l, hasBody, None);
    forall c | 0 <= c < s'.dataChannels ensures LaneSafe(s', l, c) {
      assert LaneSafe(s, l, c);
      OpenHeld(s, l, hasBody, Some(c));
    }
    forall j | j in s'.streams ensures Settled(PartOf(s', j)) {
      if j != s.nextStreamId {
        OpenParts(s, l, hasBody, j);
      }
    }
  }

  /** Only the outbound windows and the stale counter of s changed. */
  ghost predicate WindowsOnly(s: Server, s': Server) {
    s' == s.(credit := s.credit.(outStream := s'.credit.outStream, outChannel := s'.credit.outChannel), stale := s'.stale)
  }

  lemma WindowsOnlySafe(s: Server, s': Server, l: Limits)
    requires ServerSafe(s, l) && WindowsOnly(s, s')
    ensures ServerSafe(s', l)
  {
    forall j | j in s'.streams ensures LiveSafe(PartOf(s', j), l, s'.dataChannels) && Settled(PartOf(s', j)) {
      assert LiveSafe(PartOf(s, j), l, s.dataChannels);
      assert Settled(PartOf(s, j));
    }
    forall c | 0 <= c < s'.dataChannels ensures LaneSafe(s', l, c) {
      assert LaneSafe(s, l, c);
    }
    forall j | j !in s'.pumps ensures PartOf(s', j).delivered == [] {
      assert PartOf(s, j).delivered == [];
    }
  }

  lemma ReceiveSafe(s: Server, l: Limits, c: nat, f: Frame)
    requires ServerSafe(s, l) && Receive(s, l, c, f).error == None
    ensures ServerSafe(Receive(s, l, c, f).server, l)
  {
    var s' := Receive(s, l, c, f).server;
    if f.ChannelCredit? || f.StreamCredit? || f.streamId !in s.streams {
      WindowsOnlySafe(s, s', l);
    } else {
      var i := f.streamId;
      match f
      case ResponseStart(_, _) => TouchFlushSafe(s, l, i, s.streams[i].(started := true));
      case ResponseData(_, seqNo, flags, payload) => DataSafe(s, l, i, c, seqNo, flags, payload);
      case ResponseEnd(_, kind, lastSeq) =>
        EndRemoves(s, i, c, kind, lastSeq);
        CleanupServerSafe(s, l, i);
      case ResponseAbort(_) => CleanupServerSafe(s, l, i);
      case _ =>
    }
  }

  lemma FailPumpSafe(s: Server, l: Limits, i: nat)
    requires ServerSafe(s, l) && i in s.pumps
    ensures ServerSafe(FailPump(s, i).server, l)
  {
    var s1 := s.(pumps := s.pumps[i := s.pumps[i].(status := Failed)]);
    PumpOnlySafe(s, s1, l, i);
    if i in s1.streams {
      CleanupServerSafe(s1, l, i);
    }
  }

  lemma PumpStepSafe(s: Server, l: Limits, ev: ServerEvent)
    requires ServerSafe(s, l) && Enabled(s, l, ev) && (ev.PumpRead? || ev.PumpSend? || ev.PumpEnd?)
    ensures ServerSafe(Step(s, l, ev).server, l)
  {
    PumpOnlySafe(s, Step(s, l, ev).server, l, ev.i);
  }

  lemma RoomSafe(s: Server, l: Limits, i: nat, room: nat)
    requires ServerSafe(s, l) && i in s.streams
    ensures ServerSafe(FlushPending(WithRoom(s, i, room), i).server, l)
  {
    TouchFlushSafe(s, l, i, s.streams[i].(room := Some(room)));
  }

  lemma PullSafe(s: Server, l: Limits, i: nat, room: nat)
    requires ServerSafe(s, l) && i in s.streams
    ensures ServerSafe(PullBody(s, i, room).server, l)
  {
    RoomSafe(s, l, i, room + 1);
  }

  lemma OwnStepSafe(s: Server, l: Limits, ev: ServerEvent)
    requires ServerSafe(s, l) && Enabled(s, l, ev) && (ev.Open? || ev.PumpFail? || ev.PublicCancel? || ev.Drop? || ev.AttachBody?)
    ensures ServerSafe(Step(s, l, ev).server, l)
  {
    match ev
    case Open(hasBody) => OpenSafe(s, l, hasBody);
    case PumpFail(i) => FailPumpSafe(s, l, i);
    case PublicCancel(i) => CleanupServerSafe(s, l, i);
    case Drop(i) => CleanupServerSafe(s, l, i);
    case AttachBody(i) => RoomSafe(s, l, i, 1);
  }

  /** One step of the server, with any frame a client may send on any channel. */
  lemma StepSafe(s: Server, l: Limits, ev: ServerEvent)
    requires ServerSafe(s, l) && Enabled(s, l, ev) && Step(s, l, ev).error == None
    ensures ServerSafe(Step(s, l, ev).server, l)
  {
    if ev.PumpRead? || ev.PumpSend? || ev.PumpEnd? {
      PumpStepSafe(s, l, ev);
    } else if ev.PublicRead? {
      PullSafe(s, l, ev.i, s.streams[ev.i].room.value);
    } else if ev.ReceiveUp? {
      ReceiveSafe(s, l, ev.c, ev.frame);
    } else {
      OwnStepSafe(s, l, ev);
    }
  }

  lemma {:induction false} FullChannelsGet(channels: nat, n: nat, c: nat)
    ensures Get(FullChannels(channels, n), c) == if c < channels then n else 0
  {
    if channels > 0 {
      FullChannelsGet(channels - 1, n, c);
    }
  }

  lemma InitSafe(channels: nat, l: Limits)
    requires IsTunnelLimits(l) && IsValidDataChannelCount(channels)
    ensures ServerSafe(Init(channels, l), l)
  {
    var s := Init(channels, l);
    forall c | 0 <= c < channels ensures LaneSafe(s, l, c) {
      FullChannelsGet(channels, l.channelCreditBytes, c);
    }
  }
}
