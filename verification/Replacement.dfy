/** One tunnel over many client connections: data sockets, the active connection id, replacement and
    failure. What a socket of any other connection does leaves the active connection alone. */
module Replacement {
  import opened Protocol
  import opened CreditSpec
  import opened Frames
  import opened ServerSpec
  import opened ServerSafety
  import opened ServerTheorems

  /** A data socket's attachment, and whether it is open. */
  datatype Socket = Socket(conn: nat, channel: nat, generation: nat, open: bool)

  /** A request pump that outlived its connection, by the era of that connection and its stream there. */
  datatype Orphan = Orphan(era: nat, stream: nat)

  datatype Stray = Stray(origin: Orphan, channel: nat, frame: Frame)

  /** sockets by ticket, in the order of acceptance; seen are the connection ids made active so far, era
      their number. strays are the frames orphans put on the channels of the active connection. */
  datatype Link = Link(
    active: Option<nat>,
    server: Server,
    sockets: map<nat, Socket>,
    seen: set<nat>,
    nextTicket: nat,
    era: nat,
    orphans: map<Orphan, Pump>,
    strays: seq<Stray>)

  datatype Incoming = Text | Garbage | Decoded(frame: Frame)

  datatype LinkEvent =
    | Connected(ticket: nat, conn: nat, channel: nat, generation: nat)
    | Received(ticket: nat, incoming: Incoming)
    | Closed(ticket: nat)
    | Errored(ticket: nat)
    | Gone(ticket: nat)
    | Public(ev: ServerEvent)
    | Replace(conn: nat, channels: nat)
    | OrphanEnds(orphan: Orphan)
    | OrphanStops(orphan: Orphan)
    | Alarm

  predicate Owns(s: Link, k: nat) {
    k in s.sockets && s.active == Some(s.sockets[k].conn)
  }

  /** isCurrentSocket: an active socket whose generation no later socket of its channel reaches. */
  ghost predicate IsCurrent(s: Link, k: nat) {
    Owns(s, k)
    && forall j: nat :: j in s.sockets && Owns(s, j) && s.sockets[j].channel == s.sockets[k].channel ==>
         s.sockets[j].generation < s.sockets[k].generation || (s.sockets[j].generation == s.sockets[k].generation && j <= k)
  }

  ghost predicate HasDataSocket(s: Link, c: nat) {
    exists k :: Owns(s, k) && s.sockets[k].channel == c && s.sockets[k].open
  }

  ghost predicate IsReady(s: Link) {
    s.active.Some? && s.server.dataChannels >= 1
    && forall c: nat :: HasDataSocket(s, c) <==> c < s.server.dataChannels
  }

  function CloseOwn(s: Link): map<nat, Socket> {
    map k | k in s.sockets :: if Owns(s, k) then s.sockets[k].(open := false) else s.sockets[k]
  }

  /** No stored id survives the failure, so the next load starts ids from 1 again. */
  function Fail(s: Link): Link {
    if s.active.None? then s
    else s.(active := None, server := FailConnection(s.server).(nextStreamId := 1), sockets := CloseOwn(s))
  }

  /** The server after replaceClientConnection; the pumps and records of the new connection start empty. */
  function Restarted(s: Server, l: Limits, channels: nat): Server {
    var aborted := AbortBelow(s, s.nextStreamId);
    Server(channels, 1, 0, aborted.streams, [], aborted.pendingDataBytes, Reset(channels, l), map[], map[], map[], map[])
  }

  /** The pumps that run on when their connection is replaced. */
  function Surviving(pumps: map<nat, Pump>, era: nat): map<Orphan, Pump> {
    map i | i in pumps && pumps[i].status == Active :: Orphan(era, i) := pumps[i]
  }

  function Replaced(s: Link, l: Limits, conn: nat, channels: nat): Link {
    Link(Some(conn), Restarted(s.server, l, channels), CloseOwn(s), s.seen + {conn}, s.nextTicket,
         s.era + 1, s.orphans + Surviving(s.server.pumps, s.era), [])
  }

  /** At the end of its body an orphan sends REQUEST_END on whatever socket its channel has now. */
  ghost function OrphanEnd(s: Link, o: Orphan): Link
    requires o in s.orphans
  {
    var p := s.orphans[o];
    var end := Stray(o, p.channel, RequestEnd(o.stream, RequestBody, p.sendNext - 1));
    s.(orphans := s.orphans - {o}, strays := if HasDataSocket(s, p.channel) then s.strays + [end] else s.strays)
  }

  /** An accepted socket closes the earlier ones of its channel. */
  function Accept(s: Link, k: nat, conn: nat, channel: nat, generation: nat): Link {
    if s.active != Some(conn) || channel >= s.server.dataChannels then s
    else
      var others := map j | j in s.sockets ::
        if Owns(s, j) && s.sockets[j].channel == channel then s.sockets[j].(open := false) else s.sockets[j];
      s.(sockets := others[k := Socket(conn, channel, generation, true)], nextTicket := k + 1)
  }

  function Shut(s: Link, k: nat): Link {
    if k in s.sockets then s.(sockets := s.sockets[k := s.sockets[k].(open := false)]) else s
  }

  ghost function Take(s: Link, l: Limits, k: nat, incoming: Incoming): Link
    requires k in s.sockets
  {
    if !IsCurrent(s, k) then Shut(s, k)
    else
      match incoming
      case Text => Fail(s)
      case Garbage => Fail(s)
      case Decoded(f) =>
        var r := Receive(s.server, l, s.sockets[k].channel, f);
        if r.error.Some? then Fail(s.(server := r.server)) else s.(server := r.server)
  }

  /** What can happen: sockets are accepted in order, replacement ids are new, and the public side
      needs a ready tunnel to open a stream and an open data socket to send on it. */
  ghost predicate LinkCan(s: Link, l: Limits, ev: LinkEvent) {
    match ev
    case Connected(k, _, _, _) => k >= s.nextTicket
    case Received(k, _) => k in s.sockets
    case Closed(k) => k in s.sockets
    case Errored(k) => k in s.sockets
    case Gone(k) => k in s.sockets
    case Public(e) =>
      && s.active.Some? && !e.ReceiveUp? && Enabled(s.server, l, e)
      && (e.Open? ==> IsReady(s))
      && (e.PumpSend? ==> HasDataSocket(s, s.server.pumps[e.i].channel))
    case Replace(conn, channels) => conn !in s.seen && IsValidDataChannelCount(channels)
    case OrphanEnds(o) => o in s.orphans && s.orphans[o].rest.None? && s.orphans[o].sendNext - 1 <= MAX_SAFE_INTEGER
    case OrphanStops(o) => o in s.orphans
    case Alarm => true
  }

  ghost function LinkStep(s: Link, l: Limits, ev: LinkEvent): Link
    requires LinkCan(s, l, ev)
  {
    match ev
    case Connected(k, conn, channel, generation) => Accept(s, k, conn, channel, generation)
    case Received(k, incoming) => Take(s, l, k, incoming)
    case Closed(k) => if IsCurrent(s, k) then Fail(s) else Shut(s, k)
    case Errored(k) => if IsCurrent(s, k) then Fail(s) else Shut(s, k)
    case Gone(k) => s.(sockets := s.sockets - {k})
    case Public(e) => s.(server := Step(s.server, l, e).server)
    case Replace(conn, channels) => Replaced(s, l, conn, channels)
    case OrphanEnds(o) => OrphanEnd(s, o)
    case OrphanStops(o) => s.(orphans := s.orphans - {o})
    case Alarm => if s.active.None? || IsReady(s) then s else Fail(s)
  }

  ghost function LinkRun(s: Link, l: Limits, evs: seq<LinkEvent>): Option<Link>
    decreases |evs|
  {
    if evs == [] then Some(s)
    else if LinkCan(s, l, evs[0]) then LinkRun(LinkStep(s, l, evs[0]), l, evs[1..])
    else None
  }

  /** The event comes from a data socket of a connection that is not the active one. */
  predicate Foreign(s: Link, ev: LinkEvent) {
    match ev
    case Connected(_, conn, _, _) => s.active != Some(conn)
    case Received(k, _) => !Owns(s, k)
    case Closed(k) => !Owns(s, k)
    case Errored(k) => !Owns(s, k)
    case Gone(k) => !Owns(s, k)
    case _ => false
  }

  /** evs without the events that are foreign when they happen. */
  ghost function Erase(s: Link, l: Limits, evs: seq<LinkEvent>): seq<LinkEvent>
    decreases |evs|
  {
    if evs == [] || !LinkCan(s, l, evs[0]) then evs
    else
      var rest := Erase(LinkStep(s, l, evs[0]), l, evs[1..]);
      if Foreign(s, evs[0]) then rest else [evs[0]] + rest
  }

  ghost predicate LinkInv(s: Link) {
    && (s.active.Some? ==> s.active.value in s.seen)
    && forall k :: k in s.sockets ==> s.sockets[k].conn in s.seen && k < s.nextTicket
  }

  /** Same active connection, same server, same sockets of the active connection. */
  ghost predicate Alike(s: Link, t: Link) {
    && t.active == s.active && t.server == s.server && t.seen == s.seen && t.nextTicket <= s.nextTicket
    && t.era == s.era && t.orphans == s.orphans && t.strays == s.strays
    && (forall k :: Owns(t, k) <==> Owns(s, k))
    && (forall k :: Owns(s, k) ==> t.sockets[k] == s.sockets[k])
  }

  lemma TakeInv(s: Link, l: Limits, k: nat, incoming: Incoming)
    requires LinkInv(s) && k in s.sockets
    ensures LinkInv(Take(s, l, k, incoming))
  {
  }

  lemma StepInv(s: Link, l: Limits, ev: LinkEvent)
    requires LinkInv(s) && LinkCan(s, l, ev)
    ensures LinkInv(LinkStep(s, l, ev))
  {
    if ev.Received? {
      TakeInv(s, l, ev.ticket, ev.incoming);
    }
  }

  lemma ForeignStaysAlike(s: Link, t: Link, l: Limits, ev: LinkEvent)
    requires Alike(s, t) && LinkCan(s, l, ev) && Foreign(s, ev)
    ensures Alike(LinkStep(s, l, ev), t)
    ensures LinkStep(s, l, ev).active == s.active && LinkStep(s, l, ev).server == s.server
  {
  }

  lemma AlikeReady(s: Link, t: Link, c: nat)
    requires Alike(s, t)
    ensures HasDataSocket(t, c) <==> HasDataSocket(s, c)
  {
    if HasDataSocket(s, c) {
      var k :| Owns(s, k) && s.sockets[k].channel == c && s.sockets[k].open;
      assert Owns(t, k);
    }
    if HasDataSocket(t, c) {
      var k :| Owns(t, k) && t.sockets[k].channel == c && t.sockets[k].open;
      assert Owns(s, k);
    }
  }

  lemma AlikeCan(s: Link, t: Link, l: Limits, ev: LinkEvent)
    requires Alike(s, t) && LinkCan(s, l, ev) && !Foreign(s, ev)
    ensures LinkCan(t, l, ev)
    ensures IsReady(t) <==> IsReady(s)
    ensures forall k :: IsCurrent(t, k) <==> IsCurrent(s, k)
  {
    forall c ensures HasDataSocket(t, c) <==> HasDataSocket(s, c) {
      AlikeReady(s, t, c);
    }
    match ev
    case Received(k, _) => assert Owns(t, k);
    case Closed(k) => assert Owns(t, k);
    case Errored(k) => assert Owns(t, k);
    case Gone(k) => assert Owns(t, k);
    case Connected(_, _, _, _) =>
    case Public(_) =>
    case Replace(_, _) =>
    case OrphanEnds(_) =>
    case OrphanStops(_) =>
    case Alarm =>
  }

  lemma FailStaysAlike(s: Link, t: Link, server: Server)
    requires Alike(s, t)
    ensures Alike(Fail(s.(server := server)), Fail(t.(server := server)))
  {
    if s.active.Some? {
      assert forall k :: !Owns(Fail(s.(server := server)), k) && !Owns(Fail(t.(server := server)), k);
    }
  }

  lemma AcceptStaysAlike(s: Link, t: Link, k: nat, conn: nat, channel: nat, generation: nat)
    requires Alike(s, t) && s.active == Some(conn) && k >= s.nextTicket
    ensures Alike(Accept(s, k, conn, channel, generation), Accept(t, k, conn, channel, generation))
  {
    var s', t' := Accept(s, k, conn, channel, generation), Accept(t, k, conn, channel, generation);
    assert forall j :: j != k ==> (Owns(s', j) <==> Owns(s, j)) && (Owns(t', j) <==> Owns(t, j));
  }

  lemma ReplacedStaysAlike(s: Link, t: Link, l: Limits, conn: nat, channels: nat)
    requires Alike(s, t) && LinkInv(s) && LinkInv(t) && conn !in s.seen
    ensures Alike(Replaced(s, l, conn, channels), Replaced(t, l, conn, channels))
  {
    NoneOwned(s, l, conn, channels);
    NoneOwned(t, l, conn, channels);
  }

  lemma ShutStaysAlike(s: Link, t: Link, k: nat)
    requires Alike(s, t) && Owns(s, k)
    ensures Alike(Shut(s, k), Shut(t, k))
  {
    assert Owns(t, k);
    assert forall j :: (Owns(Shut(s, k), j) <==> Owns(s, j)) && (Owns(Shut(t, k), j) <==> Owns(t, j));
  }

  lemma ServedAlike(s: Link, t: Link, server: Server)
    requires Alike(s, t)
    ensures Alike(s.(server := server), t.(server := server))
  {
    assert forall j :: (Owns(s.(server := server), j) <==> Owns(s, j)) && (Owns(t.(server := server), j) <==> Owns(t, j));
  }

  lemma TakeStaysAlike(s: Link, t: Link, l: Limits, k: nat, incoming: Incoming)
    requires Alike(s, t) && Owns(s, k) && Owns(t, k) && (IsCurrent(t, k) <==> IsCurrent(s, k))
    ensures Alike(Take(s, l, k, incoming), Take(t, l, k, incoming))
  {
    FailOwn(s, t);
    ShutStaysAlike(s, t, k);
    if incoming.Decoded? {
      var r := Receive(s.server, l, s.sockets[k].channel, incoming.frame);
      ServedAlike(s, t, r.server);
      FailStaysAlike(s, t, r.server);
    }
  }

  lemma OwnStaysAlike(s: Link, t: Link, l: Limits, ev: LinkEvent)
    requires Alike(s, t) && LinkInv(s) && LinkInv(t) && LinkCan(s, l, ev) && !Foreign(s, ev)
    ensures LinkCan(t, l, ev) && Alike(LinkStep(s, l, ev), LinkStep(t, l, ev))
  {
    AlikeCan(s, t, l, ev);
    match ev
    case Connected(k, conn, channel, generation) => AcceptStaysAlike(s, t, k, conn, channel, generation);
    case Received(k, incoming) => TakeStaysAlike(s, t, l, k, incoming);
    case Replace(conn, channels) => ReplacedStaysAlike(s, t, l, conn, channels);
    case Public(e) => ServedAlike(s, t, Step(s.server, l, e).server);
    case Gone(k) =>
      assert forall j :: (Owns(LinkStep(s, l, ev), j) <==> Owns(s, j) && j != k) && (Owns(LinkStep(t, l, ev), j) <==> Owns(t, j) && j != k);
    case Closed(k) => FailOwn(s, t); ShutStaysAlike(s, t, k);
    case Errored(k) => FailOwn(s, t); ShutStaysAlike(s, t, k);
    case OrphanEnds(o) =>
      AlikeReady(s, t, s.orphans[o].channel);
      OrphanStaysAlike(s, t, o);
    case OrphanStops(o) =>
      AlikeReady(s, t, s.orphans[o].channel);
      OrphanStaysAlike(s, t, o);
    case Alarm => FailOwn(s, t);
  }

  lemma OrphanStaysAlike(s: Link, t: Link, o: Orphan)
    requires Alike(s, t) && o in s.orphans && (HasDataSocket(t, s.orphans[o].channel) <==> HasDataSocket(s, s.orphans[o].channel))
    ensures Alike(OrphanEnd(s, o), OrphanEnd(t, o)) && Alike(s.(orphans := s.orphans - {o}), t.(orphans := t.orphans - {o}))
  {
    assert forall j :: (Owns(OrphanEnd(s, o), j) <==> Owns(s, j)) && (Owns(OrphanEnd(t, o), j) <==> Owns(t, j));
    assert forall j :: (Owns(s.(orphans := s.orphans - {o}), j) <==> Owns(s, j)) && (Owns(t.(orphans := t.orphans - {o}), j) <==> Owns(t, j));
  }

  lemma FailOwn(s: Link, t: Link)
    requires Alike(s, t)
    ensures Alike(Fail(s), Fail(t))
  {
    FailStaysAlike(s, t, s.server);
    assert s.(server := s.server) == s && t.(server := s.server) == t;
  }

  lemma NoneOwned(s: Link, l: Limits, conn: nat, channels: nat)
    requires LinkInv(s) && conn !in s.seen
    ensures forall k :: !Owns(Replaced(s, l, conn, channels), k)
  {
  }

  lemma {:induction false} RunsAlike(s: Link, t: Link, l: Limits, evs: seq<LinkEvent>)
    requires Alike(s, t) && LinkInv(s) && LinkInv(t) && LinkRun(s, l, evs).Some?
    ensures var r := LinkRun(t, l, Erase(s, l, evs));
            r.Some? && Alike(LinkRun(s, l, evs).value, r.value)
    decreases |evs|
  {
    if evs != [] {
      var ev, rest := evs[0], evs[1..];
      StepInv(s, l, ev);
      if Foreign(s, ev) {
        ForeignStaysAlike(s, t, l, ev);
        RunsAlike(LinkStep(s, l, ev), t, l, rest);
      } else {
        OwnStaysAlike(s, t, l, ev);
        StepInv(t, l, ev);
        RunsAlike(LinkStep(s, l, ev), LinkStep(t, l, ev), l, rest);
        var erased := Erase(LinkStep(s, l, ev), l, rest);
        assert ([ev] + erased)[1..] == erased;
      }
    }
  }

  /** Erasing from a run everything that sockets of other connections did gives a possible run that ends
      with the same active connection and the same server: streams, credit, counters and records. */
  lemma ReplacedSocketsDoNotInterfere(s: Link, l: Limits, evs: seq<LinkEvent>)
    requires LinkInv(s) && LinkRun(s, l, evs).Some?
    ensures var r := LinkRun(s, l, Erase(s, l, evs));
            && r.Some? && r.value.active == LinkRun(s, l, evs).value.active
            && r.value.server == LinkRun(s, l, evs).value.server
            && r.value.orphans == LinkRun(s, l, evs).value.orphans && r.value.strays == LinkRun(s, l, evs).value.strays
  {
    RunsAlike(s, s, l, evs);
  }

  // ----- replacement leaves no residue -----

  /** The count of waiting bytes is the sum over live streams. */
  ghost predicate Countable(s: Server) {
    && (forall i :: i in s.streams ==> i < s.nextStreamId)
    && s.pendingDataBytes == HeldSum(s.streams, None, s.nextStreamId)
  }

  lemma CleanupCounts(s: Server, i: nat)
    requires Countable(s) && i in s.streams
    ensures Countable(CleanupStream(s, i))
  {
    HeldSumChange(s.streams, s.streams - {i}, None, s.nextStreamId, i);
  }

  lemma {:induction false} AbortedBelow(s: Server, n: nat)
    requires Countable(s)
    ensures var t := AbortBelow(s, n);
            Countable(t) && t.nextStreamId == s.nextStreamId && forall i :: i in t.streams <==> i in s.streams && i >= n
  {
    if n > 0 {
      AbortedBelow(s, n - 1);
      if n - 1 in AbortBelow(s, n - 1).streams {
        CleanupCounts(AbortBelow(s, n - 1), n - 1);
      }
    }
  }

  lemma {:induction false} NothingHeld(n: nat)
    ensures HeldSum(map[], None, n) == 0
  {
    if n > 0 {
      NothingHeld(n - 1);
    }
  }

  /** Aborting all streams leaves no stream and no waiting byte. */
  lemma AbortLeavesNothing(s: Server)
    requires Countable(s)
    ensures AbortBelow(s, s.nextStreamId).streams == map[] && AbortBelow(s, s.nextStreamId).pendingDataBytes == 0
  {
    AbortedBelow(s, s.nextStreamId);
    var t := AbortBelow(s, s.nextStreamId);
    assert t.streams.Keys == {};
    NothingHeld(t.nextStreamId);
  }

  ghost predicate Idle(s: Server) {
    s.streams == map[] && s.pendingDataBytes == 0
  }

  ghost predicate LinkSafe(s: Link, l: Limits) {
    if s.active.Some? then ServerSafe(s.server, l) else Idle(s.server)
  }

  lemma {:induction false} AbortEmpty(s: Server, n: nat)
    requires s.streams == map[]
    ensures AbortBelow(s, n) == s
  {
    if n > 0 {
      AbortEmpty(s, n - 1);
    }
  }

  lemma FailSafe(s: Link, l: Limits)
    requires if s.active.Some? then Countable(s.server) else Idle(s.server)
    ensures LinkSafe(Fail(s), l)
  {
    if s.active.Some? {
      AbortLeavesNothing(s.server);
    }
  }

  lemma DispatchErrorKeepsStreams(s: Server, l: Limits, c: nat, f: Frame)
    requires !f.ChannelCredit? && f.streamId in s.streams && DispatchStreamFrame(s, l, c, f).error.Some?
    ensures var t := DispatchStreamFrame(s, l, c, f).server;
            t.streams == s.streams && t.pendingDataBytes == s.pendingDataBytes && t.nextStreamId == s.nextStreamId
  {
    if f.ResponseStart? {
      FlushNeverFails(MarkStarted(s, f.streamId), f.streamId);
    }
  }

  lemma ReceiveSafe(s: Server, l: Limits, c: nat, f: Frame)
    requires ServerSafe(s, l)
    ensures var r := Receive(s, l, c, f); if r.error.None? then ServerSafe(r.server, l) else Countable(r.server)
  {
    if Receive(s, l, c, f).error.None? {
      StepSafe(s, l, ReceiveUp(c, f));
    } else {
      ReceiveErrorKeepsStreams(s, l, c, f, Receive(s, l, c, f));
    }
  }

  lemma ReceiveErrorKeepsStreams(s: Server, l: Limits, c: nat, f: Frame, r: Reply)
    requires r == Receive(s, l, c, f) && r.error.Some?
    ensures r.server.streams == s.streams && r.server.pendingDataBytes == s.pendingDataBytes && r.server.nextStreamId == s.nextStreamId
  {
    if IsResponse(f) && f.streamId in s.streams && s.streams[f.streamId].channel == c {
      DispatchErrorKeepsStreams(s, l, c, f);
    }
  }

  lemma PublicNeverFails(s: Server, l: Limits, ev: ServerEvent)
    requires Enabled(s, l, ev) && !ev.ReceiveUp?
    ensures Step(s, l, ev).error == None
  {
    match ev
    case AttachBody(i) => FlushNeverFails(WithRoom(s, i, 1), i);
    case PublicRead(i) =>
      FlushNeverFails(WithRoom(s, i, s.streams[i].room.value + 1), i);
    case Open(_) =>
    case PumpRead(_, _) =>
    case PumpSend(_) =>
    case PumpEnd(_) =>
    case PumpFail(_) =>
    case PublicCancel(_) =>
    case Drop(_) =>
  }

  lemma LinkStepSafe(s: Link, l: Limits, ev: LinkEvent)
    requires LinkSafe(s, l) && LinkCan(s, l, ev) && IsTunnelLimits(l)
    ensures LinkSafe(LinkStep(s, l, ev), l)
  {
    match ev
    case Connected(_, _, _, _) =>
    case Received(k, incoming) =>
      if IsCurrent(s, k) {
        if incoming.Decoded? {
          var r := Receive(s.server, l, s.sockets[k].channel, incoming.frame);
          ReceiveSafe(s.server, l, s.sockets[k].channel, incoming.frame);
          if r.error.Some? {
            FailSafe(s.(server := r.server), l);
          }
        } else {
          FailSafe(s, l);
        }
      }
    case Closed(_) => FailSafe(s, l);
    case Errored(_) => FailSafe(s, l);
    case Gone(_) =>
    case Public(e) =>
      PublicNeverFails(s.server, l, e);
      StepSafe(s.server, l, e);
    case Replace(conn, channels) =>
      ReplacedIsFresh(s, l, conn, channels);
      InitSafe(channels, l);
    case OrphanEnds(_) =>
    case OrphanStops(_) =>
    case Alarm => FailSafe(s, l);
  }

  lemma ReplacedIsFresh(s: Link, l: Limits, conn: nat, channels: nat)
    requires LinkSafe(s, l)
    ensures Replaced(s, l, conn, channels).server == Init(channels, l)
  {
    if s.active.Some? {
      AbortLeavesNothing(s.server);
    } else {
      AbortEmpty(s.server, s.server.nextStreamId);
    }
  }

  const NEW_TUNNEL := Link(None, Server(0, 1, 0, map[], [], 0, Credit(map[], map[], map[], map[]), map[], map[], map[], map[]), map[], {}, 0, 0, map[], [])

  lemma {:induction false} LinkRunSafe(s: Link, l: Limits, evs: seq<LinkEvent>)
    requires LinkSafe(s, l) && IsTunnelLimits(l) && LinkRun(s, l, evs).Some?
    ensures LinkSafe(LinkRun(s, l, evs).value, l)
    decreases |evs|
  {
    if evs != [] {
      LinkStepSafe(s, l, evs[0]);
      LinkRunSafe(LinkStep(s, l, evs[0]), l, evs[1..]);
    }
  }

  /** Whenever a tunnel's client connection is replaced, after whatever run, the server of the new connection
      starts as a fresh one: no stream, buffered byte, tombstone or spent credit of an earlier one is left.
      What is left are the pumps of earlier connections that were still running. */
  lemma ReplacementStartsAfresh(l: Limits, evs: seq<LinkEvent>, s: Link, conn: nat, channels: nat)
    requires IsTunnelLimits(l) && LinkRun(NEW_TUNNEL, l, evs) == Some(s)
    ensures Replaced(s, l, conn, channels).server == Init(channels, l)
    ensures forall o :: o in Replaced(s, l, conn, channels).orphans <==>
              o in s.orphans || (o.era == s.era && o.stream in s.server.pumps && s.server.pumps[o.stream].status == Active)
  {
    LinkRunSafe(NEW_TUNNEL, l, evs);
    ReplacedIsFresh(s, l, conn, channels);
  }
}
