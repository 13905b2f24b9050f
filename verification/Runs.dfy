/** Whole runs of an honest server and an honest client, from a fresh connection. */
module Runs {
  import opened Protocol
  import opened Frames
  import opened ServerSpec
  import opened ServerSafety
  import opened ServerOps
  import opened ServerTheorems
  import opened ServerLogs
  import opened ServerLogOps
  import opened ServerHonest
  import opened ClientSpec
  import opened ClientLogs
  import opened ClientOps
  import opened System

  /** The state after evs; None if some event was not possible or failed the connection. */
  function After(sys: Sys, l: Limits, evs: seq<SysEvent>): Option<Sys> {
    if evs == [] then Some(sys)
    else
      var n := |evs| - 1;
      match After(sys, l, evs[..n])
      case None => None
      case Some(t) =>
        if CanStep(t, l, evs[n]) && Next(t, l, evs[n]).error == None then Some(Next(t, l, evs[n]).sys) else None
  }

  /** t is reached from a fresh connection with this many channels. */
  ghost predicate Reached(channels: nat, l: Limits, evs: seq<SysEvent>, t: Sys) {
    IsTunnelLimits(l) && IsValidDataChannelCount(channels) && After(InitSys(channels, l), l, evs) == Some(t)
  }

  lemma InitServerLog(channels: nat, l: Limits, empty: Logs)
    requires |empty| == channels && forall c :: 0 <= c < channels ==> empty[c] == []
    ensures ServerLog(Init(channels, l), l, empty, empty)
  {
    forall c | 0 <= c < channels ensures LaneLog(LaneOf(Init(channels, l), c), l, empty[c], empty[c]) {
      FullChannelsGet(channels, l.channelCreditBytes, c);
    }
  }

  lemma InitClientInv(channels: nat, l: Limits, empty: Logs)
    requires IsTunnelLimits(l) && |empty| == channels && forall c :: 0 <= c < channels ==> empty[c] == []
    ensures ClientInv(InitClient(channels, l), l, empty, empty)
  {
    forall c | 0 <= c < channels ensures CLaneLog(CLaneOf(InitClient(channels, l), c), l, empty[c], empty[c]) {
      FullChannelsGet(channels, l.channelCreditBytes, c);
    }
  }

  lemma InitInv(channels: nat, l: Limits)
    requires IsTunnelLimits(l) && IsValidDataChannelCount(channels)
    ensures SysInv(InitSys(channels, l), l)
  {
    var sys := InitSys(channels, l);
    var empty := Sent(sys.down);
    assert Received(sys.down) == empty && Sent(sys.up) == empty && Received(sys.up) == empty;
    InitSafe(channels, l);
    InitServerLog(channels, l, empty);
    InitClientInv(channels, l, empty);
  }

  lemma {:induction false} ReachedInv(channels: nat, l: Limits, evs: seq<SysEvent>, t: Sys)
    requires Reached(channels, l, evs, t)
    ensures SysInv(t, l)
    decreases |evs|
  {
    if evs == [] {
      InitInv(channels, l);
    } else {
      var n := |evs| - 1;
      var s := After(InitSys(channels, l), l, evs[..n]).value;
      ReachedInv(channels, l, evs[..n], s);
      StepFailsOnlyOnEviction(s, l, evs[n]);
    }
  }

  /** In every run, a step takes a protocol-error branch exactly when the frame it handles belongs to
      a stream whose tombstone the client has evicted. */
  lemma NoProtocolError(channels: nat, l: Limits, evs: seq<SysEvent>, t: Sys, ev: SysEvent)
    requires Reached(channels, l, evs, t) && CanStep(t, l, ev)
    ensures Next(t, l, ev).error != None <==> EvictedHead(t, ev)
    ensures Next(t, l, ev).error != None ==> Next(t, l, ev).error == Some(UnknownStream)
  {
    ReachedInv(channels, l, evs, t);
    StepFailsOnlyOnEviction(t, l, ev);
  }

  // ----- splitting a log at the cursor -----

  lemma {:induction false} SumsAdd(a: seq<Frame>, b: seq<Frame>)
    ensures Payload(a + b) == Payload(a) + Payload(b)
    ensures StreamGrants(a + b) == StreamGrants(a) + StreamGrants(b)
    ensures ChannelGrants(a + b) == ChannelGrants(a) + ChannelGrants(b)
    decreases |b|
  {
    if b == [] {
      assert a + b == a;
    } else {
      var n := |b| - 1;
      assert a + b == (a + b[..n]) + [b[n]];
      assert b == b[..n] + [b[n]];
      SumsAdd(a, b[..n]);
      Snoc(a + b[..n], b[n]);
      Snoc(b[..n], b[n]);
    }
  }

  lemma SplitAtCursor(ch: Channel, i: nat)
    requires ch.received <= |ch.sent|
    ensures var a, b := ch.sent[..ch.received], InFlight(ch);
            && |Payload(ch.sent)| == |Payload(a)| + |Payload(b)|
            && ChannelGrants(ch.sent) == ChannelGrants(a) + ChannelGrants(b)
            && |Payload(Proj(ch.sent, i))| == |Payload(Proj(a, i))| + |Payload(Proj(b, i))|
            && StreamGrants(Proj(ch.sent, i)) == StreamGrants(Proj(a, i)) + StreamGrants(Proj(b, i))
  {
    var a, b := ch.sent[..ch.received], InFlight(ch);
    assert ch.sent == a + b;
    SumsAdd(a, b);
    ProjAppend(a, b, i);
    SumsAdd(Proj(a, i), Proj(b, i));
  }

  // ----- credit ledgers -----

  function DataInFlight(ch: Channel): nat {
    |Payload(InFlight(ch))|
  }

  function StreamDataInFlight(ch: Channel, i: nat): nat {
    |Payload(Proj(InFlight(ch), i))|
  }

  function StreamCreditInFlight(ch: Channel, i: nat): nat {
    StreamGrants(Proj(InFlight(ch), i))
  }

  /** The two ends of channel c. */
  ghost predicate LaneFaces(s: Lane, k: CLane, l: Limits, held: nat, dn: Channel, up: Channel) {
    && dn.received <= |dn.sent| && up.received <= |up.sent|
    && LaneLog(s, l, dn.sent, up.sent[..up.received])
    && CLaneLog(k, l, dn.sent[..dn.received], up.sent)
    && s.inCredit + held + s.lost == l.channelCreditBytes
  }

  lemma LanesFace(t: Sys, l: Limits, c: nat)
    requires SysInv(t, l) && c < |t.down|
    ensures LaneFaces(LaneOf(t.server, c), CLaneOf(t.client, c), l,
                      HeldSum(t.server.streams, Some(c), t.server.nextStreamId), t.down[c], t.up[c])
  {
    assert LaneLog(LaneOf(t.server, c), l, Sent(t.down)[c], Received(t.up)[c]);
    assert CLaneLog(CLaneOf(t.client, c), l, Received(t.down)[c], Sent(t.up)[c]);
    assert LaneSafe(t.server, l, c);
  }

  lemma LaneLedger(s: Lane, k: CLane, l: Limits, held: nat, dn: Channel, up: Channel)
    requires LaneFaces(s, k, l, held, dn, up)
    ensures s.outCredit + DataInFlight(dn) + ChannelGrants(InFlight(up)) + k.stale == k.inCredit
    ensures k.outCredit + DataInFlight(up) + ChannelGrants(InFlight(dn)) + s.stale == s.inCredit
  {
    SplitAtCursor(dn, 0);
    SplitAtCursor(up, 0);
  }

  /** Channel credit is conserved in both directions, up to the bytes of frames that were dropped. */
  lemma ChannelLedger(channels: nat, l: Limits, evs: seq<SysEvent>, t: Sys, c: nat)
    requires Reached(channels, l, evs, t) && c < |t.down| == |t.up|
    ensures var s, k := LaneOf(t.server, c), CLaneOf(t.client, c);
            && s.outCredit + DataInFlight(t.down[c]) + ChannelGrants(InFlight(t.up[c])) + k.stale == k.inCredit
            && k.outCredit + DataInFlight(t.up[c]) + ChannelGrants(InFlight(t.down[c])) + s.stale == s.inCredit
            && k.inCredit + k.held + k.lost == l.channelCreditBytes
            && s.inCredit + HeldSum(t.server.streams, Some(c), t.server.nextStreamId) + s.lost == l.channelCreditBytes
  {
    ReachedInv(channels, l, evs, t);
    LanesFace(t, l, c);
    LaneLedger(LaneOf(t.server, c), CLaneOf(t.client, c), l, HeldSum(t.server.streams, Some(c), t.server.nextStreamId),
               t.down[c], t.up[c]);
  }

  /** The two ends of stream i on its channel. */
  ghost predicate Faces(p: Part, q: CPart, l: Limits, i: nat, dn: Channel, up: Channel) {
    && dn.received <= |dn.sent| && up.received <= |up.sent|
    && PartLog(p, l, Proj(dn.sent, i), Proj(up.sent[..up.received], i))
    && CPartLog(q, l, Proj(dn.sent[..dn.received], i), Proj(up.sent, i))
    && (q.home.None? ==> Proj(dn.sent[..dn.received], i) == [] && Proj(up.sent, i) == [])
    && (p.stream.Some? ==> p.inCredit + p.stream.value.pendingBytes == l.streamCreditBytes
                           && p.stream.value.pendingBytes == |Concat(p.stream.value.pending)|)
  }

  /** The channel a stream was opened on. */
  function HomeOf(t: Sys, i: nat): nat
    requires i in t.server.pumps
  {
    t.server.pumps[i].channel
  }

  ghost predicate StreamFaces(t: Sys, l: Limits, i: nat) {
    && i in t.server.pumps && HomeOf(t, i) < |t.down| == |t.up|
    && (i in t.server.streams ==> t.server.streams[i].channel == HomeOf(t, i))
    && (i in t.client.homes ==> t.client.homes[i] == HomeOf(t, i))
    && (i in t.client.streams ==> i in t.client.homes)
    && Faces(PartOf(t.server, i), CPartOf(t.client, i), l, i, t.down[HomeOf(t, i)], t.up[HomeOf(t, i)])
  }

  lemma UnknownHasNoFrames(t: Sys, l: Limits, i: nat, c: nat)
    requires SysInv(t, l) && i !in t.client.homes && c < |t.down|
    ensures Proj(Received(t.down)[c], i) == [] && Proj(Sent(t.up)[c], i) == []
    ensures CPartLog(CPartOf(t.client, i), l, [], [])
  {
    assert CHomeLog(Received(t.down)[c], t.client.homes, c) && CHomeLog(Sent(t.up)[c], t.client.homes, c);
    NoFrames(Received(t.down)[c], i);
    NoFrames(Sent(t.up)[c], i);
  }

  lemma StreamsFace(t: Sys, l: Limits, i: nat)
    requires SysInv(t, l) && i in t.server.pumps
    ensures StreamFaces(t, l, i)
  {
    NearLog(t.server, l, Sent(t.down), Received(t.up), i);
    var c := HomeOf(t, i);
    if i in t.client.streams {
      LiveHasHome(t.client, l, Received(t.down), Sent(t.up), i);
    }
    if i in t.client.homes {
      HomesAgree(t, l, i);
      CNearInv(t.client, l, Received(t.down), Sent(t.up), i);
    } else {
      UnknownHasNoFrames(t, l, i, c);
    }
  }

  lemma ReachedFaces(channels: nat, l: Limits, evs: seq<SysEvent>, t: Sys, i: nat)
    requires Reached(channels, l, evs, t) && (i in t.server.pumps || i in t.server.streams || i in t.client.homes)
    ensures StreamFaces(t, l, i)
  {
    ReachedInv(channels, l, evs, t);
    if i in t.client.homes {
      HomesAgree(t, l, i);
    }
    StreamsFace(t, l, i);
  }

  lemma RequestLedgerCore(p: Part, q: CPart, l: Limits, i: nat, dn: Channel, up: Channel)
    requires Faces(p, q, l, i, dn, up) && p.stream.Some? && (q.stream.Some? || q.home.None?)
    ensures p.outCredit + StreamDataInFlight(dn, i) + |q.held| + StreamCreditInFlight(up, i) == l.streamCreditBytes
    ensures q.stream.Some? ==> q.inCredit + |q.held| == l.streamCreditBytes
  {
    SplitAtCursor(dn, i);
    SplitAtCursor(up, i);
  }

  /** Request-body credit of a stream live at the server, once the client has it or before it does. */
  lemma RequestLedger(channels: nat, l: Limits, evs: seq<SysEvent>, t: Sys, i: nat)
    requires Reached(channels, l, evs, t) && i in t.server.streams
    requires i in t.client.streams || i !in t.client.homes
    ensures StreamFaces(t, l, i)
    ensures PartOf(t.server, i).outCredit + StreamDataInFlight(t.down[HomeOf(t, i)], i) + |CPartOf(t.client, i).held|
              + StreamCreditInFlight(t.up[HomeOf(t, i)], i) == l.streamCreditBytes
    ensures i in t.client.streams ==> CPartOf(t.client, i).inCredit + |CPartOf(t.client, i).held| == l.streamCreditBytes
  {
    ReachedFaces(channels, l, evs, t, i);
    RequestLedgerCore(PartOf(t.server, i), CPartOf(t.client, i), l, i, t.down[HomeOf(t, i)], t.up[HomeOf(t, i)]);
  }

  lemma ResponseLedgerCore(p: Part, q: CPart, l: Limits, i: nat, dn: Channel, up: Channel)
    requires Faces(p, q, l, i, dn, up) && p.stream.Some? && q.stream.Some?
    ensures q.outCredit + StreamDataInFlight(up, i) + p.stream.value.pendingBytes + StreamCreditInFlight(dn, i) == l.streamCreditBytes
  {
    SplitAtCursor(dn, i);
    SplitAtCursor(up, i);
  }

  /** Response-body credit of a stream live at both ends. */
  lemma ResponseLedger(channels: nat, l: Limits, evs: seq<SysEvent>, t: Sys, i: nat)
    requires Reached(channels, l, evs, t) && i in t.server.streams && i in t.client.streams
    ensures StreamFaces(t, l, i)
    ensures CPartOf(t.client, i).outCredit + StreamDataInFlight(t.up[HomeOf(t, i)], i) + t.server.streams[i].pendingBytes
              + StreamCreditInFlight(t.down[HomeOf(t, i)], i) == l.streamCreditBytes
    ensures PartOf(t.server, i).inCredit + t.server.streams[i].pendingBytes == l.streamCreditBytes
  {
    ReachedFaces(channels, l, evs, t, i);
    ResponseLedgerCore(PartOf(t.server, i), CPartOf(t.client, i), l, i, t.down[HomeOf(t, i)], t.up[HomeOf(t, i)]);
  }

  // ----- delivery -----

  lemma RequestExactCore(p: Part, q: CPart, l: Limits, i: nat, dn: Channel, up: Channel)
    requires Faces(p, q, l, i, dn, up) && q.home.Some?
    ensures q.written <= p.pump.value.read
    ensures q.writerClosed ==> p.pump.value.status == EndSent && q.written == p.pump.value.read
  {
    var got, sent := Proj(dn.sent[..dn.received], i), Proj(dn.sent, i);
    ProjGrow(dn.sent[..dn.received], dn.sent, i);
    Grow(got, sent);
    if Ended(got) {
      NoDataAfterEnd(got, sent);
    }
    assert q.written <= q.written + q.held <= Payload(got) <= Payload(sent) <= p.pump.value.read;
  }

  /** What a request writer took is always a prefix of what the pump read from the public body, and
      once the client closes the writer it is all of it. */
  lemma RequestBodyExact(channels: nat, l: Limits, evs: seq<SysEvent>, t: Sys, i: nat)
    requires Reached(channels, l, evs, t)
    ensures i in t.client.homes ==> i in t.server.pumps && GetBytes(t.client.written, i) <= t.server.pumps[i].read
    ensures i in t.client.closedWriters ==>
              && i in t.server.pumps && t.server.pumps[i].status == EndSent
              && GetBytes(t.client.written, i) == t.server.pumps[i].read
  {
    if i in t.client.homes {
      ReachedFaces(channels, l, evs, t, i);
      RequestExactCore(PartOf(t.server, i), CPartOf(t.client, i), l, i, t.down[HomeOf(t, i)], t.up[HomeOf(t, i)]);
      assert CPartOf(t.client, i).writerClosed == (i in t.client.closedWriters);
    } else {
      ReachedInv(channels, l, evs, t);
      assert CPartLog(CPartOf(t.client, i), l, [], []);
    }
  }

  lemma ResponsePrefixCore(p: Part, q: CPart, l: Limits, i: nat, dn: Channel, up: Channel)
    requires Faces(p, q, l, i, dn, up)
    ensures p.delivered <= q.read
    ensures p.stream.Some? ==> p.delivered + Concat(p.stream.value.pending) == Payload(Proj(up.sent[..up.received], i))
  {
    var got, sent := Proj(up.sent[..up.received], i), Proj(up.sent, i);
    ProjGrow(up.sent[..up.received], up.sent, i);
    Grow(got, sent);
    assert p.delivered <= Payload(got) <= Payload(sent) <= q.read;
  }

  /** The public body is always a prefix of what the client took from its upstream; for a live stream
      it lacks exactly the queued payloads of what has arrived. */
  lemma ResponseBodyPrefix(channels: nat, l: Limits, evs: seq<SysEvent>, t: Sys, i: nat)
    requires Reached(channels, l, evs, t)
    ensures GetBytes(t.server.delivered, i) <= GetBytes(t.client.read, i)
    ensures i in t.server.streams ==> StreamFaces(t, l, i)
    ensures i in t.server.streams ==>
              GetBytes(t.server.delivered, i) + Concat(t.server.streams[i].pending)
              == Payload(Proj(t.up[HomeOf(t, i)].sent[..t.up[HomeOf(t, i)].received], i))
  {
    ReachedInv(channels, l, evs, t);
    if i in t.server.pumps {
      ReachedFaces(channels, l, evs, t, i);
      ResponsePrefixCore(PartOf(t.server, i), CPartOf(t.client, i), l, i, t.down[HomeOf(t, i)], t.up[HomeOf(t, i)]);
    } else {
      assert PartOf(t.server, i).delivered == [];
    }
  }

  lemma ResponseEndCore(p: Part, q: CPart, l: Limits, i: nat, dn: Channel, up: Channel)
    requires Faces(p, q, l, i, dn, up) && p.stream.Some? && q.home.Some?
    requires up.received < |up.sent| && up.sent[up.received].ResponseEnd? && up.sent[up.received].streamId == i
    ensures p.delivered == q.read <==> p.stream.value.pendingBytes == 0
  {
    var a, f := up.sent[..up.received], up.sent[up.received];
    ProjHead(a, up.sent, i);
    Snoc(Proj(a, i), f);
    Grow(Proj(a, i) + [f], Proj(up.sent, i));
    NoDataAfterEnd(Proj(a, i) + [f], Proj(up.sent, i));
    LengthDecides(p.delivered, Concat(p.stream.value.pending), q.read);
  }

  lemma LengthDecides(a: bytes, b: bytes, whole: bytes)
    requires a + b == whole
    ensures a == whole <==> |b| == 0
  {
    if |b| == 0 {
      assert a + b == a;
    }
  }

  lemma EndAtHome(t: Sys, l: Limits, c: nat)
    requires SysInv(t, l) && HasHead(t.up, c) && Head(t.up, c).ResponseEnd? && Head(t.up, c).streamId in t.server.streams
    ensures var f := Head(t.up, c); var i := f.streamId;
            && i in t.server.pumps && c == HomeOf(t, i) == t.server.streams[i].channel && i in t.client.homes
            && ReceiveEnd(t.server, i, c, f.kind, f.lastSeq).error == None
  {
    var f := Head(t.up, c);
    UpIsHonest(t, l, c);
    StreamBooks(t.server, l, f.streamId);
    EndAccepted(t.server, l, Sent(t.down), Received(t.up), f.streamId, c, f);
    assert CHomeLog(Sent(t.up)[c], t.client.homes, c);
  }

  /** An END that has reached its live stream removes it and delivers nothing more. */
  lemma EndStep(t: Sys, l: Limits, c: nat, f: Frame)
    requires HasHead(t.up, c) && f == Head(t.up, c) && f.ResponseEnd? && f.streamId in t.server.streams
    requires t.server.streams[f.streamId].channel == c && ReceiveEnd(t.server, f.streamId, c, f.kind, f.lastSeq).error == None
    ensures Next(t, l, DeliverUp(c)).sys.server == CleanupStream(t.server, f.streamId)
  {
    EndReply(t.server, f.streamId, c, f.kind, f.lastSeq);
  }

  /** When RESPONSE_END arrives at a live stream, the public body is complete if and only if no
      payload is still queued: the stream is removed together with its queue. */
  lemma ResponseCompleteAtEnd(channels: nat, l: Limits, evs: seq<SysEvent>, t: Sys, c: nat)
    requires Reached(channels, l, evs, t) && HasHead(t.up, c) && Head(t.up, c).ResponseEnd?
    requires Head(t.up, c).streamId in t.server.streams
    ensures var i := Head(t.up, c).streamId; var t' := Next(t, l, DeliverUp(c)).sys;
            && i !in t'.server.streams
            && (GetBytes(t'.server.delivered, i) == GetBytes(t.client.read, i) <==> t.server.streams[i].pendingBytes == 0)
  {
    ReachedInv(channels, l, evs, t);
    EndAtHome(t, l, c);
    EndStep(t, l, c, Head(t.up, c));
    var i := Head(t.up, c).streamId;
    ReachedFaces(channels, l, evs, t, i);
    ResponseEndCore(PartOf(t.server, i), CPartOf(t.client, i), l, i, t.down[c], t.up[c]);
  }
}
