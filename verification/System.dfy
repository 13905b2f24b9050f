/** Server, client and one FIFO in each direction per data channel. A channel keeps everything ever
    sent on it; the frames still in flight are those after the first `received`. */
module System {
  import opened Protocol
  import opened Frames
  import opened ServerSpec
  import opened ServerSafety
  import opened ServerLogs
  import opened ServerLogOps
  import opened ServerHonest
  import opened ServerEvents
  import opened ClientSpec
  import opened ClientLogs
  import opened ClientHonest
  import opened ClientEvents

  datatype Channel = Channel(sent: seq<Frame>, received: nat)

  datatype Sys = Sys(server: Server, client: Client, down: seq<Channel>, up: seq<Channel>)

  datatype SysEvent =
    | ServerActs(sev: ServerEvent)
    | ClientActs(cev: ClientEvent)
    | DeliverUp(c: nat)
    | DeliverDown(c: nat)

  datatype Outcome = Outcome(sys: Sys, error: Option<ProtocolError>)

  ghost predicate Fifo(chs: seq<Channel>) {
    forall c :: 0 <= c < |chs| ==> chs[c].received <= |chs[c].sent|
  }

  function Sent(chs: seq<Channel>): Logs {
    seq(|chs|, c requires 0 <= c < |chs| => chs[c].sent)
  }

  function Received(chs: seq<Channel>): Logs {
    seq(|chs|, c requires 0 <= c < |chs| => chs[c].sent[..Min(chs[c].received, |chs[c].sent|)])
  }

  function InFlight(ch: Channel): seq<Frame> {
    ch.sent[Min(ch.received, |ch.sent|)..]
  }

  predicate HasHead(chs: seq<Channel>, c: nat) {
    c < |chs| && chs[c].received < |chs[c].sent|
  }

  function Head(chs: seq<Channel>, c: nat): Frame
    requires HasHead(chs, c)
  {
    chs[c].sent[chs[c].received]
  }

  function Send(chs: seq<Channel>, c: nat, fs: seq<Frame>): seq<Channel> {
    if c < |chs| then chs[c := chs[c].(sent := chs[c].sent + fs)] else chs
  }

  function Advance(chs: seq<Channel>, c: nat): seq<Channel>
    requires c < |chs|
  {
    chs[c := chs[c].(received := chs[c].received + 1)]
  }

  function InitSys(channels: nat, l: Limits): Sys {
    var empty := seq(channels, _ => Channel([], 0));
    Sys(Init(channels, l), InitClient(channels, l), empty, empty)
  }

  predicate CanStep(sys: Sys, l: Limits, ev: SysEvent) {
    match ev
    case ServerActs(sev) => !sev.ReceiveUp? && Enabled(sys.server, l, sev)
    case ClientActs(cev) => !cev.ReceiveDown? && ClientEnabled(sys.client, l, cev)
    case DeliverUp(c) => HasHead(sys.up, c)
    case DeliverDown(c) => HasHead(sys.down, c) && c !in sys.client.busy
  }

  function Next(sys: Sys, l: Limits, ev: SysEvent): Outcome
    requires CanStep(sys, l, ev)
  {
    match ev
    case ServerActs(sev) =>
      var r := Step(sys.server, l, sev);
      Outcome(sys.(server := r.server, down := Send(sys.down, r.channel, r.out)), r.error)
    case ClientActs(cev) =>
      var r := ClientStep(sys.client, l, cev);
      Outcome(sys.(client := r.client, up := Send(sys.up, r.channel, r.out)), r.error)
    case DeliverUp(c) =>
      var r := Receive(sys.server, l, c, Head(sys.up, c));
      Outcome(sys.(server := r.server, up := Advance(sys.up, c), down := Send(sys.down, r.channel, r.out)), r.error)
    case DeliverDown(c) =>
      var r := ReceiveFrame(sys.client, l, c, Head(sys.down, c));
      Outcome(sys.(client := r.client, down := Advance(sys.down, c), up := Send(sys.up, r.channel, r.out)), r.error)
  }

  /** Each side's state is explained by what it has sent and received. */
  ghost predicate SysInv(sys: Sys, l: Limits) {
    && |sys.down| == |sys.up| && Fifo(sys.down) && Fifo(sys.up)
    && ServerInv(sys.server, l, Sent(sys.down), Received(sys.up))
    && ClientInv(sys.client, l, Received(sys.down), Sent(sys.up))
  }

  lemma SomeFrame(fs: seq<Frame>, i: nat)
    requires Proj(fs, i) != []
    ensures exists k :: 0 <= k < |fs| && Of(fs[k], i)
  {
    if forall k :: 0 <= k < |fs| ==> !Of(fs[k], i) {
      NoFrames(fs, i);
    }
  }

  lemma HomeOfFrames(fs: seq<Frame>, pumps: map<nat, Pump>, c: nat, i: nat)
    requires HomeLog(fs, pumps, c) && Proj(fs, i) != []
    ensures i in pumps && pumps[i].channel == c
  {
    SomeFrame(fs, i);
    var k :| 0 <= k < |fs| && Of(fs[k], i);
  }

  /** A stream the client knows has a frame on its home channel. */
  lemma KnownHasFrames(sys: Sys, l: Limits, i: nat)
    requires SysInv(sys, l) && i in sys.client.homes
    ensures sys.client.homes[i] < |sys.down| && Proj(Received(sys.down)[sys.client.homes[i]], i) != []
  {
    var c := sys.client.homes[i];
    assert CPartLog(CPartOf(sys.client, i), l, Proj(Received(sys.down)[c], i), Proj(Sent(sys.up)[c], i));
  }

  /** The client's home of a stream is the server's. */
  lemma HomesAgree(sys: Sys, l: Limits, i: nat)
    requires SysInv(sys, l) && i in sys.client.homes
    ensures i in sys.server.pumps && sys.server.pumps[i].channel == sys.client.homes[i] < |sys.down|
  {
    var c := sys.client.homes[i];
    KnownHasFrames(sys, l, i);
    ProjGrow(Received(sys.down)[c], sys.down[c].sent, i);
    assert HomeLog(Sent(sys.down)[c], sys.server.pumps, c);
    HomeOfFrames(sys.down[c].sent, sys.server.pumps, c, i);
  }

  /** Frames ahead of a cursor: the head extends what was received, and stays within what was sent. */
  lemma HeadFacts(ch: Channel, i: nat)
    requires ch.received < |ch.sent|
    ensures var a, f := ch.sent[..ch.received], ch.sent[ch.received];
            && |Payload(a + [f])| <= |Payload(ch.sent)| && ChannelGrants(a + [f]) <= ChannelGrants(ch.sent)
            && (Of(f, i) ==>
                 && Proj(a, i) + [f] <= Proj(ch.sent, i)
                 && |Payload(Proj(a, i) + [f])| <= |Payload(Proj(ch.sent, i))|
                 && StreamGrants(Proj(a, i) + [f]) <= StreamGrants(Proj(ch.sent, i)))
  {
    var a, f := ch.sent[..ch.received], ch.sent[ch.received];
    assert a + [f] <= ch.sent;
    Grow(a + [f], ch.sent);
    if Of(f, i) {
      ProjHead(a, ch.sent, i);
      Grow(Proj(a, i) + [f], Proj(ch.sent, i));
    }
  }

  lemma PrefixFacts(a: seq<Frame>, b: seq<Frame>, i: nat)
    requires a <= b
    ensures |Payload(a)| <= |Payload(b)| && ChannelGrants(a) <= ChannelGrants(b)
    ensures |Payload(Proj(a, i))| <= |Payload(Proj(b, i))| && StreamGrants(Proj(a, i)) <= StreamGrants(Proj(b, i))
    ensures Proj(a, i) <= Proj(b, i)
  {
    Grow(a, b);
    ProjGrow(a, b, i);
    Grow(Proj(a, i), Proj(b, i));
  }

  /** What is in flight from an honest client is what the server may rely on. */
  lemma UpIsHonest(sys: Sys, l: Limits, c: nat)
    requires SysInv(sys, l) && HasHead(sys.up, c)
    ensures HonestUp(sys.server, l, Sent(sys.down), Received(sys.up), c, Head(sys.up, c))
  {
    var f := Head(sys.up, c);
    var D, U := Sent(sys.down), Received(sys.up);
    var d, u := Received(sys.down)[c], sys.up[c].sent;
    var i := if f.ChannelCredit? then 0 else f.streamId;
    assert CLaneLog(CLaneOf(sys.client, c), l, d, Sent(sys.up)[c]);
    HeadFacts(sys.up[c], i);
    PrefixFacts(d, D[c], i);
    if !f.ChannelCredit? {
      assert CHomeLog(Sent(sys.up)[c], sys.client.homes, c);
      HomesAgree(sys, l, i);
      UpStreamIsHonest(CPartOf(sys.client, i), l, i, d, D[c], U[c], u, f);
    }
  }

  lemma UpStreamIsHonest(p: CPart, l: Limits, i: nat, d: seq<Frame>, D: seq<Frame>, U: seq<Frame>, u: seq<Frame>, f: Frame)
    requires CPartLog(p, l, Proj(d, i), Proj(u, i)) && p.home.Some? && Of(f, i)
    requires d <= D && Proj(U, i) + [f] <= Proj(u, i)
    ensures UpNext(Proj(U, i), f)
    ensures |Payload(Proj(U, i) + [f])| <= l.streamCreditBytes + StreamGrants(Proj(D, i))
    ensures StreamGrants(Proj(U, i) + [f]) <= |Payload(Proj(D, i))|
  {
    PrefixFacts(d, D, i);
    WellUpPrefix(Proj(U, i) + [f], Proj(u, i));
    Snoc(Proj(U, i), f);
    Grow(Proj(U, i) + [f], Proj(u, i));
  }

  lemma DownStreamIsHonest(p: Part, l: Limits, i: nat, d: seq<Frame>, D: seq<Frame>, U: seq<Frame>, u: seq<Frame>, f: Frame)
    requires PartLog(p, l, Proj(d, i), Proj(u, i)) && Of(f, i)
    requires u <= U && Proj(D, i) + [f] <= Proj(d, i)
    ensures DownNext(Proj(D, i), f)
    ensures |Payload(Proj(D, i) + [f])| <= l.streamCreditBytes + StreamGrants(Proj(U, i))
    ensures StreamGrants(Proj(D, i) + [f]) <= |Payload(Proj(U, i))|
  {
    PrefixFacts(u, U, i);
    WellDownPrefix(Proj(D, i) + [f], Proj(d, i));
    Snoc(Proj(D, i), f);
    Grow(Proj(D, i) + [f], Proj(d, i));
  }

  /** What the server knows about the frame next on channel c. */
  lemma DownHead(sys: Sys, l: Limits, c: nat, f: Frame)
    requires SysInv(sys, l) && HasHead(sys.down, c) && f == Head(sys.down, c)
    ensures LaneLog(LaneOf(sys.server, c), l, sys.down[c].sent, Received(sys.up)[c]) && LaneSafe(sys.server, l, c)
    ensures !f.ChannelCredit? ==>
              && PartLog(PartOf(sys.server, f.streamId), l, Proj(sys.down[c].sent, f.streamId), Proj(Received(sys.up)[c], f.streamId))
              && (f.streamId in sys.client.homes ==> sys.client.homes[f.streamId] == c)
  {
    assert LaneLog(LaneOf(sys.server, c), l, Sent(sys.down)[c], Received(sys.up)[c]);
    if !f.ChannelCredit? {
      assert HomeLog(Sent(sys.down)[c], sys.server.pumps, c);
      if f.streamId in sys.client.homes {
        HomesAgree(sys, l, f.streamId);
      }
    }
  }

  /** What is in flight from an honest server is what the client may rely on. */
  lemma DownIsHonest(sys: Sys, l: Limits, c: nat)
    requires SysInv(sys, l) && HasHead(sys.down, c)
    ensures HonestDown(sys.client, l, Received(sys.down), Sent(sys.up), c, Head(sys.down, c))
  {
    var f := Head(sys.down, c);
    var d, u := sys.down[c].sent, Received(sys.up)[c];
    var i := if f.ChannelCredit? then 0 else f.streamId;
    DownHead(sys, l, c, f);
    HeadFacts(sys.down[c], i);
    PrefixFacts(u, Sent(sys.up)[c], i);
    if !f.ChannelCredit? {
      DownStreamIsHonest(PartOf(sys.server, i), l, i, d, Received(sys.down)[c], Sent(sys.up)[c], u, f);
    }
  }

  // ----- logs after a step -----

  lemma SendLogs(chs: seq<Channel>, c: nat, fs: seq<Frame>)
    requires Fifo(chs) && c < |chs|
    ensures Sent(Send(chs, c, fs)) == Put(Sent(chs), c, fs)
    ensures Received(Send(chs, c, fs)) == Received(chs)
    ensures Fifo(Send(chs, c, fs))
  {
    var chs' := Send(chs, c, fs);
    assert chs'[c].sent[..chs[c].received] == chs[c].sent[..chs[c].received];
  }

  lemma AdvanceLogs(chs: seq<Channel>, c: nat)
    requires Fifo(chs) && HasHead(chs, c)
    ensures Sent(Advance(chs, c)) == Sent(chs)
    ensures Received(Advance(chs, c)) == Put(Received(chs), c, [Head(chs, c)])
    ensures Fifo(Advance(chs, c))
  {
    assert chs[c].sent[..chs[c].received + 1] == chs[c].sent[..chs[c].received] + [Head(chs, c)];
  }

  /** The one frame that can fail a connection between honest peers: it is next on channel c and its
      stream was closed by the client so long ago that the client no longer remembers it. */
  predicate EvictedHead(sys: Sys, ev: SysEvent) {
    ev.DeliverDown? && HasHead(sys.down, ev.c) && Evicted(sys.client, Head(sys.down, ev.c))
  }

  /** Safety of one step: a protocol-error branch is taken if and only if an evicted frame arrives. */
  lemma StepFailsOnlyOnEviction(sys: Sys, l: Limits, ev: SysEvent)
    requires SysInv(sys, l) && CanStep(sys, l, ev)
    ensures var o := Next(sys, l, ev);
            if EvictedHead(sys, ev) then o.error == Some(UnknownStream) else o.error == None && SysInv(o.sys, l)
  {
    match ev
    case ServerActs(sev) =>
      OwnStepInv(sys.server, l, Sent(sys.down), Received(sys.up), sev);
      SendLogs(sys.down, Step(sys.server, l, sev).channel, Step(sys.server, l, sev).out);
    case ClientActs(cev) =>
      OwnClientStepInv(sys.client, l, Received(sys.down), Sent(sys.up), cev);
      SendLogs(sys.up, ClientStep(sys.client, l, cev).channel, ClientStep(sys.client, l, cev).out);
    case DeliverUp(c) => DeliverUpInv(sys, l, c);
    case DeliverDown(c) => DeliverDownInv(sys, l, c);
  }

  lemma DeliverUpInv(sys: Sys, l: Limits, c: nat)
    requires SysInv(sys, l) && HasHead(sys.up, c)
    ensures var o := Next(sys, l, DeliverUp(c)); o.error == None && SysInv(o.sys, l)
  {
    var r := Receive(sys.server, l, c, Head(sys.up, c));
    UpIsHonest(sys, l, c);
    HonestReceive(sys.server, l, Sent(sys.down), Received(sys.up), c, Head(sys.up, c));
    SendLogs(sys.down, c, r.out);
    AdvanceLogs(sys.up, c);
  }

  lemma DeliverDownInv(sys: Sys, l: Limits, c: nat)
    requires SysInv(sys, l) && HasHead(sys.down, c) && c !in sys.client.busy
    ensures var o := Next(sys, l, DeliverDown(c));
            if EvictedHead(sys, DeliverDown(c)) then o.error == Some(UnknownStream) else o.error == None && SysInv(o.sys, l)
  {
    var r := ReceiveFrame(sys.client, l, c, Head(sys.down, c));
    DownIsHonest(sys, l, c);
    ClientReceives(sys.client, l, Received(sys.down), Sent(sys.up), c, Head(sys.down, c));
    if !Evicted(sys.client, Head(sys.down, c)) {
      SendLogs(sys.up, c, r.out);
      AdvanceLogs(sys.down, c);
    }
  }
}
