/** When the client says that a response is complete, and when that it is given up, over whole runs. */
module ResponseNotices {
  import opened Protocol
  import opened Frames
  import opened ServerSpec
  import opened ClientSpec
  import opened ClientLogs
  import opened ClientOps
  import opened System
  import opened Runs

  /** RESPONSE_END, or else RESPONSE_ABORT, of stream i. */
  predicate IsLast(f: Frame, i: nat, end: bool) {
    if end then f.ResponseEnd? && f.streamId == i else f == ResponseAbort(i)
  }

  predicate HasLast(fs: seq<Frame>, i: nat, end: bool) {
    exists k :: 0 <= k < |fs| && IsLast(fs[k], i, end)
  }

  predicate LastSent(chs: seq<Channel>, i: nat, end: bool) {
    exists c :: 0 <= c < |chs| && HasLast(chs[c].sent, i, end)
  }

  /** A body frame that the client can do nothing with: there is no writer for it, or a second REQUEST_END. */
  predicate Unwanted(cl: Client, f: Frame, i: nat)
    requires i in cl.streams
  {
    || (f.RequestData? && f.streamId == i && !cl.streams[i].hasBody)
    || (f.RequestEnd? && f.streamId == i && cl.streams[i].hasBody && i in cl.closedWriters)
  }

  /** The client gives up its live stream i in this step: its local request failed, a write of its body failed or was
      empty, or a frame of its body is unwanted. */
  predicate GivesUp(s: Sys, ev: SysEvent, i: nat) {
    && i in s.client.streams
    && match ev
       case ClientActs(UpstreamFail(j)) => j == i
       case ClientActs(WriteFail(c)) => c in s.client.busy && s.client.busy[c].stream == i
       case ClientActs(WriteDone(c)) => c in s.client.busy && s.client.busy[c] == Writing(i, [])
       case DeliverDown(c) => HasHead(s.down, c) && Unwanted(s.client, Head(s.down, c), i)
       case _ => false
  }

  predicate Says(s: Sys, ev: SysEvent, i: nat, end: bool) {
    if end then ev == ClientActs(UpstreamEnd(i)) else GivesUp(s, ev, i)
  }

  lemma SendLast(chs: seq<Channel>, c: nat, fs: seq<Frame>, i: nat, end: bool)
    requires c < |chs|
    ensures LastSent(Send(chs, c, fs), i, end) <==> LastSent(chs, i, end) || HasLast(fs, i, end)
  {
    var after := Send(chs, c, fs);
    AppendLast(chs[c].sent, fs, i, end);
    if LastSent(chs, i, end) {
      var d :| 0 <= d < |chs| && HasLast(chs[d].sent, i, end);
      assert HasLast(after[d].sent, i, end);
    }
    if HasLast(fs, i, end) {
      assert HasLast(after[c].sent, i, end);
    }
  }

  lemma AppendLast(a: seq<Frame>, b: seq<Frame>, i: nat, end: bool)
    ensures HasLast(a + b, i, end) <==> HasLast(a, i, end) || HasLast(b, i, end)
  {
    if HasLast(a, i, end) {
      var k :| 0 <= k < |a| && IsLast(a[k], i, end);
      assert IsLast((a + b)[k], i, end);
    }
    if HasLast(b, i, end) {
      var k :| 0 <= k < |b| && IsLast(b[k], i, end);
      assert IsLast((a + b)[|a| + k], i, end);
    }
  }

  lemma OwnLast(s: Sys, l: Limits, cev: ClientEvent, i: nat, end: bool, out: seq<Frame>)
    requires ClientEnabled(s.client, l, cev) && !cev.ReceiveDown? && out == ClientStep(s.client, l, cev).out
    ensures HasLast(out, i, end) <==> Says(s, ClientActs(cev), i, end)
  {
    if |out| > 0 {
      assert IsLast(out[0], i, end) ==> HasLast(out, i, end);
    }
  }

  lemma TakenLast(s: Sys, l: Limits, c: nat, i: nat, end: bool, out: seq<Frame>)
    requires HasHead(s.down, c) && out == ReceiveFrame(s.client, l, c, Head(s.down, c)).out
    requires ReceiveFrame(s.client, l, c, Head(s.down, c)).error == None && forall j :: j in s.client.closed ==> j !in s.client.streams
    ensures HasLast(out, i, end) <==> Says(s, DeliverDown(c), i, end)
  {
    if |out| > 0 {
      assert IsLast(out[0], i, end) ==> HasLast(out, i, end);
    }
  }

  lemma StepLast(s: Sys, l: Limits, ev: SysEvent, i: nat, end: bool)
    requires SysInv(s, l) && CanStep(s, l, ev) && Next(s, l, ev).error == None
    ensures LastSent(Next(s, l, ev).sys.up, i, end) <==> LastSent(s.up, i, end) || Says(s, ev, i, end)
  {
    match ev
    case ServerActs(_) =>
    case ClientActs(cev) =>
      var r := ClientStep(s.client, l, cev);
      OwnLast(s, l, cev, i, end, r.out);
      OwnChannel(s, l, cev, r);
      SendLast(s.up, r.channel, r.out, i, end);
    case DeliverUp(c) =>
      assert forall d :: 0 <= d < |s.up| ==> Next(s, l, ev).sys.up[d].sent == s.up[d].sent;
    case DeliverDown(c) =>
      var r := ReceiveFrame(s.client, l, c, Head(s.down, c));
      TakenLast(s, l, c, i, end, r.out);
      TakenChannel(s.client, l, c, Head(s.down, c), r);
      SendLast(s.up, r.channel, r.out, i, end);
  }

  lemma TakenChannel(cl: Client, l: Limits, c: nat, f: Frame, r: ClientReply)
    requires r == ReceiveFrame(cl, l, c, f)
    ensures r.channel == c
  {
  }

  lemma OwnChannel(s: Sys, l: Limits, cev: ClientEvent, r: ClientReply)
    requires SysInv(s, l) && ClientEnabled(s.client, l, cev) && !cev.ReceiveDown? && r == ClientStep(s.client, l, cev)
    ensures r.channel < |s.up|
  {
    if cev.WriteDone? || cev.WriteFail? {
      BusyChannel(s, l, cev.c);
    } else {
      LiveHasHome(s.client, l, Received(s.down), Sent(s.up), cev.i);
    }
  }

  lemma BusyChannel(s: Sys, l: Limits, c: nat)
    requires SysInv(s, l) && c in s.client.busy
    ensures c < |s.up|
  {
    CNearInv(s.client, l, Received(s.down), Sent(s.up), s.client.busy[c].stream);
  }

  ghost predicate SaysAt(s: Sys, l: Limits, evs: seq<SysEvent>, n: nat, i: nat, end: bool) {
    n < |evs| && After(s, l, evs[..n]).Some? && Says(After(s, l, evs[..n]).value, evs[n], i, end)
  }

  ghost predicate SaysIn(s: Sys, l: Limits, evs: seq<SysEvent>, i: nat, end: bool) {
    exists n: nat :: SaysAt(s, l, evs, n, i, end)
  }

  lemma SaysSnoc(s: Sys, l: Limits, evs: seq<SysEvent>, i: nat, end: bool)
    requires evs != []
    ensures SaysIn(s, l, evs, i, end) <==> SaysIn(s, l, evs[..|evs| - 1], i, end) || SaysAt(s, l, evs, |evs| - 1, i, end)
  {
    var before := evs[..|evs| - 1];
    forall n: nat | n < |before| ensures SaysAt(s, l, before, n, i, end) <==> SaysAt(s, l, evs, n, i, end) {
      assert before[..n] == evs[..n];
    }
  }

  /** In every run: RESPONSE_END of stream i is sent if and only if its upstream response was read to the end, and
      RESPONSE_ABORT if and only if the client gave the stream up while it was live. */
  lemma {:induction false} LastSentExactly(channels: nat, l: Limits, evs: seq<SysEvent>, t: Sys, i: nat, end: bool)
    requires Reached(channels, l, evs, t)
    ensures LastSent(t.up, i, end) <==> SaysIn(InitSys(channels, l), l, evs, i, end)
    decreases |evs|
  {
    if evs != [] {
      var n := |evs| - 1;
      var s := After(InitSys(channels, l), l, evs[..n]).value;
      LastSentExactly(channels, l, evs[..n], s, i, end);
      ReachedInv(channels, l, evs[..n], s);
      SaysSnoc(InitSys(channels, l), l, evs, i, end);
      StepLast(s, l, evs[n], i, end);
    }
  }
}
