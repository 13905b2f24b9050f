/** Neither end gives up a stream in silence: what it tells the other, over whole runs. */
module Notices {
  import opened Protocol
  import opened Frames
  import opened ServerSpec
  import opened ServerSafety
  import opened ServerLogs
  import opened ServerOps
  import opened ServerTheorems
  import opened ClientSpec
  import opened ClientLogs
  import opened System
  import opened Runs
  import opened RoundRobin
  import opened Outcomes

  // ----- logs -----

  lemma {:induction false} AbortedGrows(a: seq<Frame>, b: seq<Frame>)
    requires a <= b && Aborted(a)
    ensures Aborted(b)
    decreases |b|
  {
    if a != b {
      assert a <= b[..|b| - 1];
      AbortedGrows(a, b[..|b| - 1]);
    }
  }

  lemma {:induction false} EndsAdd(a: seq<Frame>, b: seq<Frame>)
    ensures Ended(a + b) <==> Ended(a) || Ended(b)
    ensures Aborted(a + b) <==> Aborted(a) || Aborted(b)
    decreases |b|
  {
    if b == [] {
      assert a + b == a;
    } else {
      var n := |b| - 1;
      assert a + b == (a + b[..n]) + [b[n]] && b == b[..n] + [b[n]];
      EndsAdd(a, b[..n]);
      Snoc(a + b[..n], b[n]);
      Snoc(b[..n], b[n]);
    }
  }

  predicate LastOf(f: Frame, i: nat) {
    Of(f, i) && (IsEnd(f) || IsAbort(f))
  }

  lemma {:induction false} LastFrameOf(fs: seq<Frame>, i: nat)
    requires Ended(Proj(fs, i)) || Aborted(Proj(fs, i))
    ensures exists k :: 0 <= k < |fs| && LastOf(fs[k], i)
  {
    if fs != [] {
      var n := |fs| - 1;
      assert fs == fs[..n] + [fs[n]];
      ProjSnoc(fs[..n], fs[n], i);
      Snoc(Proj(fs[..n], i), fs[n]);
      assert Proj(fs[..n], i) + [] == Proj(fs[..n], i);
      if !LastOf(fs[n], i) {
        LastFrameOf(fs[..n], i);
        var k :| 0 <= k < n && LastOf(fs[..n][k], i);
        assert LastOf(fs[k], i);
      }
    }
  }

  // ----- the client tells the server -----

  lemma AnnouncedCore(p: Part, q: CPart, l: Limits, i: nat, dn: Channel, up: Channel)
    requires Faces(p, q, l, i, dn, up) && p.stream.Some? && q.home.Some? && q.stream.None?
    ensures exists k :: 0 <= k < |InFlight(up)| && LastOf(InFlight(up)[k], i)
  {
    var got, flight := up.sent[..up.received], InFlight(up);
    assert up.sent == got + flight;
    ProjAppend(got, flight, i);
    EndsAdd(Proj(got, i), Proj(flight, i));
    ProjGrow(dn.sent[..dn.received], dn.sent, i);
    if Aborted(Proj(dn.sent[..dn.received], i)) {
      AbortedGrows(Proj(dn.sent[..dn.received], i), Proj(dn.sent, i));
    }
    LastFrameOf(flight, i);
  }

  /** In every run: when the client has given up a stream that is still live at the server, for whatever reason, a
      RESPONSE_END or RESPONSE_ABORT of that stream is on its way on the stream's channel. */
  lemma ClientAnnounces(channels: nat, l: Limits, evs: seq<SysEvent>, t: Sys, i: nat)
    requires Reached(channels, l, evs, t) && i in t.server.streams && i in t.client.homes && i !in t.client.streams
    ensures i in t.server.pumps && HomeOf(t, i) < |t.up|
    ensures exists k :: 0 <= k < |InFlight(t.up[HomeOf(t, i)])| && LastOf(InFlight(t.up[HomeOf(t, i)])[k], i)
  {
    ReachedFaces(channels, l, evs, t, i);
    AnnouncedCore(PartOf(t.server, i), CPartOf(t.client, i), l, i, t.down[HomeOf(t, i)], t.up[HomeOf(t, i)]);
  }

  // ----- the server tells the client -----

  /** In this run the public side went away from live stream i, or its pump failed. */
  ghost predicate GivenUp(s: Sys, l: Limits, evs: seq<SysEvent>, i: nat) {
    exists n: nat :: GivesUpAt(s, l, evs, n, i)
  }

  ghost predicate GivesUpAt(s: Sys, l: Limits, evs: seq<SysEvent>, n: nat, i: nat) {
    && n < |evs| && (evs[n] == ServerActs(PumpFail(i)) || evs[n] == ServerActs(PublicCancel(i)))
    && After(s, l, evs[..n]).Some? && i in After(s, l, evs[..n]).value.server.streams
  }

  ghost predicate AbortSent(t: Sys, i: nat) {
    exists c :: 0 <= c < |t.down| && RequestAbort(i) in t.down[c].sent
  }

  lemma FlushNoAbort(s: Server, i: nat, r: Reply, j: nat)
    requires i in s.streams && r == FlushPending(s, i)
    ensures RequestAbort(j) !in r.out
  {
    FlushSendsCredit(s, i);
  }

  lemma PullNoAbort(s: Server, i: nat, room: nat, j: nat)
    requires i in s.streams
    ensures RequestAbort(j) !in PullBody(s, i, room).out
  {
    FlushNoAbort(WithRoom(s, i, room + 1), i, PullBody(s, i, room), j);
  }

  lemma OwnAborts(s: Server, l: Limits, ev: ServerEvent, i: nat)
    requires Enabled(s, l, ev) && !ev.ReceiveUp?
    ensures RequestAbort(i) in Step(s, l, ev).out <==> (ev == PumpFail(i) || ev == PublicCancel(i)) && i in s.streams
    ensures Step(s, l, ev).out != [] && (ev.PumpFail? || ev.PublicCancel?) ==> ev.i in s.streams
  {
    if ev.AttachBody? {
      FlushNoAbort(WithRoom(s, ev.i, 1), ev.i, Step(s, l, ev), i);
    } else if ev.PublicRead? {
      PullNoAbort(s, ev.i, s.streams[ev.i].room.value, i);
    }
  }

  lemma StepAborts(t: Sys, l: Limits, ev: SysEvent, i: nat)
    requires CanStep(t, l, ev) && Next(t, l, ev).error == None && |t.down| == t.server.dataChannels && IdsSafe(t.server)
    requires forall j :: j in t.server.pumps ==> t.server.pumps[j].channel < t.server.dataChannels
    requires forall j :: j in t.server.streams ==> t.server.streams[j].channel < t.server.dataChannels
    ensures AbortSent(Next(t, l, ev).sys, i) <==>
            AbortSent(t, i) || ((ev == ServerActs(PumpFail(i)) || ev == ServerActs(PublicCancel(i))) && i in t.server.streams)
  {
    match ev
    case ServerActs(sev) =>
      var r := Step(t.server, l, sev);
      OwnAborts(t.server, l, sev, i);
      SentAborts(t.down, r.channel, r.out, i);
    case ClientActs(_) =>
    case DeliverUp(c) =>
      var r := Receive(t.server, l, c, Head(t.up, c));
      ReceiveSendsCredit(t.server, l, c, Head(t.up, c), r);
      SentAborts(t.down, r.channel, r.out, i);
    case DeliverDown(c) =>
      assert forall d :: 0 <= d < |t.down| ==> Next(t, l, ev).sys.down[d].sent == t.down[d].sent;
  }

  predicate Holds(chs: seq<Channel>, f: Frame) {
    exists c :: 0 <= c < |chs| && f in chs[c].sent
  }

  lemma SentAborts(chs: seq<Channel>, c: nat, fs: seq<Frame>, i: nat)
    ensures Holds(Send(chs, c, fs), RequestAbort(i)) <==> Holds(chs, RequestAbort(i)) || (c < |chs| && RequestAbort(i) in fs)
  {
    var after := Send(chs, c, fs);
    if Holds(chs, RequestAbort(i)) {
      var d :| 0 <= d < |chs| && RequestAbort(i) in chs[d].sent;
      assert RequestAbort(i) in after[d].sent;
    }
    if c < |chs| && RequestAbort(i) in fs {
      assert RequestAbort(i) in after[c].sent;
    }
    if Holds(after, RequestAbort(i)) {
      var d :| 0 <= d < |after| && RequestAbort(i) in after[d].sent;
      assert d != c ==> RequestAbort(i) in chs[d].sent;
    }
  }

  lemma GivenUpSnoc(s: Sys, l: Limits, evs: seq<SysEvent>, i: nat)
    requires evs != []
    ensures GivenUp(s, l, evs, i) <==> GivenUp(s, l, evs[..|evs| - 1], i) || GivesUpAt(s, l, evs, |evs| - 1, i)
  {
    var before := evs[..|evs| - 1];
    forall n: nat | n < |before| ensures GivesUpAt(s, l, before, n, i) <==> GivesUpAt(s, l, evs, n, i) {
      assert before[..n] == evs[..n];
    }
  }

  /** In every run: RequestAbort of stream i is sent if and only if the public side went away from it, or its pump
      failed, while it was live. */
  lemma {:induction false} AbortSentExactly(channels: nat, l: Limits, evs: seq<SysEvent>, t: Sys, i: nat)
    requires Reached(channels, l, evs, t)
    ensures AbortSent(t, i) <==> GivenUp(InitSys(channels, l), l, evs, i)
    decreases |evs|
  {
    if evs != [] {
      var n := |evs| - 1;
      var s := After(InitSys(channels, l), l, evs[..n]).value;
      AbortSentExactly(channels, l, evs[..n], s, i);
      ReachedInv(channels, l, evs[..n], s);
      InvBounds(s, l);
      GivenUpSnoc(InitSys(channels, l), l, evs, i);
      StepAborts(s, l, evs[n], i);
    }
  }

  lemma InvBounds(t: Sys, l: Limits)
    requires SysInv(t, l)
    ensures |t.down| == t.server.dataChannels && IdsSafe(t.server)
    ensures forall j :: j in t.server.pumps ==> t.server.pumps[j].channel < t.server.dataChannels
    ensures forall j :: j in t.server.streams ==> t.server.streams[j].channel < t.server.dataChannels
  {
    forall j | j in t.server.streams ensures t.server.streams[j].channel < t.server.dataChannels {
      assert LiveSafe(PartOf(t.server, j), l, t.server.dataChannels);
    }
  }

  lemma HomeOfAbort(t: Sys, l: Limits, c: nat, k: nat, i: nat)
    requires SysInv(t, l) && c < |t.down| && k < |t.down[c].sent| && t.down[c].sent[k] == RequestAbort(i)
    ensures i in t.server.pumps && t.server.pumps[i].channel == c
  {
    assert HomeLog(Sent(t.down)[c], t.server.pumps, c);
  }

  lemma {:induction false} AbortIsAborted(fs: seq<Frame>, k: nat, i: nat)
    requires k < |fs| && fs[k] == RequestAbort(i)
    ensures Aborted(Proj(fs, i))
  {
    var n := |fs| - 1;
    assert fs == fs[..n] + [fs[n]];
    ProjSnoc(fs[..n], fs[n], i);
    Snoc(Proj(fs[..n], i), fs[n]);
    assert Proj(fs[..n], i) + [] == Proj(fs[..n], i);
    if k < n {
      AbortIsAborted(fs[..n], k, i);
    }
  }

  lemma AbortInFlight(p: Part, q: CPart, l: Limits, i: nat, dn: Channel, up: Channel, k: nat)
    requires Faces(p, q, l, i, dn, up) && q.stream.Some? && q.home.Some? && k < |dn.sent| && dn.sent[k] == RequestAbort(i)
    ensures RequestAbort(i) in InFlight(dn)
  {
    if k < dn.received {
      AbortIsAborted(dn.sent[..dn.received], k, i);
    } else {
      assert InFlight(dn)[k - dn.received] == RequestAbort(i);
    }
  }

  /** In every run: when the server has given up a stream because its public side went away or its pump failed, and
      the client still has it, RequestAbort is on its way on the stream's channel. */
  lemma ServerAnnounces(channels: nat, l: Limits, evs: seq<SysEvent>, t: Sys, i: nat)
    requires Reached(channels, l, evs, t) && GivenUp(InitSys(channels, l), l, evs, i) && i in t.client.streams
    ensures i in t.server.pumps && HomeOf(t, i) < |t.down| && RequestAbort(i) in InFlight(t.down[HomeOf(t, i)])
  {
    AbortSentExactly(channels, l, evs, t, i);
    ReachedInv(channels, l, evs, t);
    var c :| 0 <= c < |t.down| && RequestAbort(i) in t.down[c].sent;
    var k :| 0 <= k < |t.down[c].sent| && t.down[c].sent[k] == RequestAbort(i);
    HomeOfAbort(t, l, c, k, i);
    ReachedFaces(channels, l, evs, t, i);
    assert CPartOf(t.client, i).home.Some?;
    AbortInFlight(PartOf(t.server, i), CPartOf(t.client, i), l, i, t.down[c], t.up[c], k);
  }

  // ----- a failed pump -----

  lemma StepKeepsFailed(s: Server, l: Limits, ev: ServerEvent, i: nat)
    requires Enabled(s, l, ev) && !ev.ReceiveUp? && i in s.pumps && (s.pumps[i].status == Failed || ev == PumpFail(i))
    requires s.nextStreamId !in s.pumps
    ensures i in Step(s, l, ev).server.pumps && Step(s, l, ev).server.pumps[i].status == Failed
  {
    if ev.AttachBody? {
      FlushKeepsPumps(WithRoom(s, ev.i, 1), ev.i);
    } else if ev.PublicRead? {
      PullKeepsPumps(s, ev.i, s.streams[ev.i].room.value);
    }
  }

  lemma NextKeepsFailed(t: Sys, l: Limits, ev: SysEvent, i: nat)
    requires CanStep(t, l, ev) && IdsSafe(t.server)
    requires (i in t.server.pumps && t.server.pumps[i].status == Failed) || ev == ServerActs(PumpFail(i))
    ensures var s := Next(t, l, ev).sys.server; i in s.pumps && s.pumps[i].status == Failed
  {
    match ev
    case ServerActs(sev) => StepKeepsFailed(t.server, l, sev, i);
    case ClientActs(_) =>
    case DeliverUp(c) => ReceiveKeepsPumps(t.server, l, c, Head(t.up, c), Receive(t.server, l, c, Head(t.up, c)));
    case DeliverDown(_) =>
  }

  lemma LastStep(channels: nat, l: Limits, evs: seq<SysEvent>, t: Sys) returns (s: Sys)
    requires Reached(channels, l, evs, t) && evs != []
    ensures Reached(channels, l, evs[..|evs| - 1], s) && IdsSafe(s.server)
    ensures CanStep(s, l, evs[|evs| - 1]) && Next(s, l, evs[|evs| - 1]) == Outcome(t, None)
  {
    s := After(InitSys(channels, l), l, evs[..|evs| - 1]).value;
    ReachedInv(channels, l, evs[..|evs| - 1], s);
  }

  lemma {:induction false} FailedForGood(channels: nat, l: Limits, evs: seq<SysEvent>, t: Sys, i: nat)
    requires Reached(channels, l, evs, t) && ServerActs(PumpFail(i)) in evs
    ensures i in t.server.pumps && t.server.pumps[i].status == Failed
    decreases |evs|
  {
    var n := |evs| - 1;
    var s := LastStep(channels, l, evs, t);
    if evs[n] != ServerActs(PumpFail(i)) {
      assert ServerActs(PumpFail(i)) in evs[..n];
      FailedForGood(channels, l, evs[..n], s, i);
    }
    NextKeepsFailed(s, l, evs[n], i);
  }

  /** In every run: a request whose pump failed is never declared ended, and its writer at the client is never
      closed as if its body were complete. */
  lemma FailedPumpNeverEnds(channels: nat, l: Limits, evs: seq<SysEvent>, t: Sys, i: nat)
    requires Reached(channels, l, evs, t) && ServerActs(PumpFail(i)) in evs
    ensures i in t.server.pumps && HomeOf(t, i) < |t.down| && !Ended(Proj(t.down[HomeOf(t, i)].sent, i))
    ensures i !in t.client.closedWriters
  {
    FailedForGood(channels, l, evs, t, i);
    ReachedFaces(channels, l, evs, t, i);
    RequestBodyExact(channels, l, evs, t, i);
  }
}
