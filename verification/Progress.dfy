/** When a body chunk can go out: exactly, on a channel on which nothing is under way; and never, in any state, if it
    is larger than a window. */
module Progress {
  import opened Protocol
  import opened CreditSpec
  import opened Frames
  import opened ServerSpec
  import opened ServerSafety
  import opened ServerLogs
  import opened ClientSpec
  import opened ClientLogs
  import opened ClientOps
  import opened System
  import opened Runs
  import opened Notices

  /** Nothing is under way on channel c, and the client is not in the middle of a write there. */
  predicate Quiet(t: Sys, c: nat) {
    && c < |t.down| && c < |t.up| && c !in t.client.busy
    && t.down[c].received == |t.down[c].sent| && t.up[c].received == |t.up[c].sent|
  }

  lemma QuietFlight(t: Sys, c: nat, i: nat)
    requires Quiet(t, c)
    ensures InFlight(t.down[c]) == InFlight(t.up[c]) == []
    ensures DataInFlight(t.down[c]) == DataInFlight(t.up[c]) == 0
    ensures ChannelGrants(InFlight(t.down[c])) == ChannelGrants(InFlight(t.up[c])) == 0
    ensures StreamDataInFlight(t.down[c], i) == StreamDataInFlight(t.up[c], i) == 0
    ensures StreamCreditInFlight(t.down[c], i) == StreamCreditInFlight(t.up[c], i) == 0
  {
  }

  // ----- request bodies -----

  predicate ChunkInHand(t: Sys, i: nat) {
    && i in t.server.pumps && t.server.pumps[i].status == Active && t.server.pumps[i].rest.Some?
    && t.server.pumps[i].sendNext <= MAX_UINT64
  }

  function ChunkSize(l: Limits, rest: Option<bytes>): nat {
    if rest.None? then 0 else Min(l.maxFrameBytes, |rest.value|)
  }

  lemma PumpSendExactly(t: Sys, l: Limits, i: nat, n: nat)
    requires ChunkInHand(t, i) && i in t.server.streams && n == ChunkSize(l, t.server.pumps[i].rest)
    ensures CanStep(t, l, ServerActs(PumpSend(i))) <==>
            && n <= Get(t.server.credit.outStream, Key(i, RequestBody))
            && n <= Get(t.server.credit.outChannel, t.server.pumps[i].channel)
  {
    assert |Chunk(t.server.pumps[i].rest.value, l.maxFrameBytes)| == n;
  }

  /** The credit of a quiet channel is all at its sender, but for the bytes of frames that were dropped; so a live
      stream's next request chunk can be sent if and only if the stream window covers it and the channel window
      covers it together with the bytes lost at the client. */
  lemma QuietChannelSends(channels: nat, l: Limits, evs: seq<SysEvent>, t: Sys, i: nat)
    requires Reached(channels, l, evs, t) && i in t.server.streams && ChunkInHand(t, i) && Quiet(t, HomeOf(t, i))
    ensures var n, c := ChunkSize(l, t.server.pumps[i].rest), HomeOf(t, i);
            CanStep(t, l, ServerActs(PumpSend(i))) <==>
              && n <= l.streamCreditBytes
              && n + Get(t.client.stale, c) + Get(t.client.lost, c) <= l.channelCreditBytes
  {
    var n, c := ChunkSize(l, t.server.pumps[i].rest), HomeOf(t, i);
    QuietFlight(t, c, i);
    if i in t.client.homes && i !in t.client.streams {
      ClientAnnounces(channels, l, evs, t, i);
    }
    RequestLedger(channels, l, evs, t, i);
    assert CPartOf(t.client, i).held == [];
    ChannelLedger(channels, l, evs, t, c);
    PumpSendExactly(t, l, i, n);
  }

  lemma RequestWindowBounded(p: Part, q: CPart, l: Limits, i: nat, dn: Channel, up: Channel)
    requires Faces(p, q, l, i, dn, up) && p.stream.Some?
    ensures p.outCredit <= l.streamCreditBytes
  {
    SplitAtCursor(dn, i);
    SplitAtCursor(up, i);
  }

  /** A request chunk larger than a window is never sent: its stream waits for good. */
  lemma OversizeNeverSends(channels: nat, l: Limits, evs: seq<SysEvent>, t: Sys, i: nat)
    requires Reached(channels, l, evs, t) && ChunkInHand(t, i)
    requires var n := ChunkSize(l, t.server.pumps[i].rest); n > l.streamCreditBytes || n > l.channelCreditBytes
    ensures !CanStep(t, l, ServerActs(PumpSend(i)))
  {
    if i in t.server.streams {
      var n, c := ChunkSize(l, t.server.pumps[i].rest), HomeOf(t, i);
      ReachedFaces(channels, l, evs, t, i);
      RequestWindowBounded(PartOf(t.server, i), CPartOf(t.client, i), l, i, t.down[c], t.up[c]);
      ChannelLedger(channels, l, evs, t, c);
      PumpSendExactly(t, l, i, n);
    }
  }

  // ----- response bodies -----

  predicate ResponseInHand(t: Sys, i: nat) {
    && i in t.client.streams && t.client.streams[i].responding && t.client.streams[i].rest.Some?
    && t.client.streams[i].sendNext <= MAX_UINT64
  }

  lemma UpstreamSendExactly(t: Sys, l: Limits, i: nat, n: nat)
    requires ResponseInHand(t, i) && n == ChunkSize(l, t.client.streams[i].rest)
    ensures CanStep(t, l, ClientActs(UpstreamSend(i))) <==>
            && n <= Get(t.client.credit.outStream, Key(i, ResponseBody))
            && n <= Get(t.client.credit.outChannel, t.client.streams[i].channel)
  {
    assert |Chunk(t.client.streams[i].rest.value, l.maxFrameBytes)| == n;
  }

  /** On a quiet channel a response chunk can be sent if and only if the stream window covers it together with what
      is queued for the stream, and the channel window together with what the channel's streams have queued and
      the bytes lost at the server. */
  lemma QuietChannelAnswers(channels: nat, l: Limits, evs: seq<SysEvent>, t: Sys, i: nat)
    requires Reached(channels, l, evs, t) && i in t.server.streams && ResponseInHand(t, i)
    requires i in t.server.pumps && Quiet(t, HomeOf(t, i))
    ensures var n, c := ChunkSize(l, t.client.streams[i].rest), HomeOf(t, i);
            CanStep(t, l, ClientActs(UpstreamSend(i))) <==>
              && n + t.server.streams[i].pendingBytes <= l.streamCreditBytes
              && n + HeldSum(t.server.streams, Some(c), t.server.nextStreamId) + Get(t.server.stale, c)
                   + Get(t.server.lost, c) <= l.channelCreditBytes
  {
    var n, c := ChunkSize(l, t.client.streams[i].rest), HomeOf(t, i);
    QuietFlight(t, c, i);
    ResponseLedger(channels, l, evs, t, i);
    ChannelLedger(channels, l, evs, t, c);
    UpstreamSendExactly(t, l, i, n);
    ClientChannel(channels, l, evs, t, i);
  }

  lemma ClientChannel(channels: nat, l: Limits, evs: seq<SysEvent>, t: Sys, i: nat)
    requires Reached(channels, l, evs, t) && i in t.client.streams
    ensures i in t.client.homes && t.client.streams[i].channel == t.client.homes[i]
    ensures i in t.server.pumps && HomeOf(t, i) == t.client.homes[i]
  {
    ReachedInv(channels, l, evs, t);
    LiveHasHome(t.client, l, Received(t.down), Sent(t.up), i);
    HomesAgree(t, l, i);
  }

  lemma ResponseWindowBounded(p: Part, q: CPart, l: Limits, i: nat, dn: Channel, up: Channel)
    requires Faces(p, q, l, i, dn, up) && q.stream.Some? && q.home.Some?
    ensures q.outCredit <= l.streamCreditBytes
  {
    SplitAtCursor(dn, i);
    SplitAtCursor(up, i);
  }

  /** Nor is a response chunk larger than a window. */
  lemma OversizeNeverAnswers(channels: nat, l: Limits, evs: seq<SysEvent>, t: Sys, i: nat)
    requires Reached(channels, l, evs, t) && ResponseInHand(t, i)
    requires var n := ChunkSize(l, t.client.streams[i].rest); n > l.streamCreditBytes || n > l.channelCreditBytes
    ensures !CanStep(t, l, ClientActs(UpstreamSend(i)))
  {
    ClientChannel(channels, l, evs, t, i);
    var n, c := ChunkSize(l, t.client.streams[i].rest), HomeOf(t, i);
    ReachedFaces(channels, l, evs, t, i);
    ResponseWindowBounded(PartOf(t.server, i), CPartOf(t.client, i), l, i, t.down[c], t.up[c]);
    ChannelLedger(channels, l, evs, t, c);
    UpstreamSendExactly(t, l, i, n);
  }
}
