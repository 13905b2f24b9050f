/** The credit controller of an endpoint. The client's and the server's are twins; the server's also
    sends the two frames of GrantFrames when it grants, which the client's caller does itself. */
module CreditController {
  import opened Protocol
  import opened CreditSpec
  import opened Wakeups

  const DATA_KINDS: seq<DataKind> := [RequestBody, ResponseBody, WsClient, WsServer]

  function SetKinds(m: map<Key, nat>, i: nat, n: nat, kinds: seq<DataKind>): map<Key, nat> {
    if kinds == [] then m else SetKinds(m, i, n, kinds[..|kinds| - 1])[Key(i, kinds[|kinds| - 1]) := n]
  }

  function DropKinds(m: map<Key, nat>, i: nat, kinds: seq<DataKind>): map<Key, nat> {
    if kinds == [] then m else DropKinds(m, i, kinds[..|kinds| - 1]) - {Key(i, kinds[|kinds| - 1])}
  }

  lemma AllKinds(m: map<Key, nat>, i: nat, n: nat)
    ensures SetKinds(m, i, n, DATA_KINDS) == SetAll(m, i, n)
    ensures DropKinds(m, i, DATA_KINDS) == m - Keys(i)
  {
    var ks := DATA_KINDS;
    assert ks[..3][..2] == ks[..2] && ks[..2][..1] == ks[..1] && ks[..1][..0] == [];
    assert SetKinds(m, i, n, ks[..1]) == m[Key(i, RequestBody) := n];
    assert SetKinds(m, i, n, ks[..2]) == m[Key(i, RequestBody) := n][Key(i, ResponseBody) := n];
    assert SetKinds(m, i, n, ks[..3]) == m[Key(i, RequestBody) := n][Key(i, ResponseBody) := n][Key(i, WsClient) := n];
    assert DropKinds(m, i, ks[..1]) == m - {Key(i, RequestBody)};
    assert DropKinds(m, i, ks[..2]) == m - {Key(i, RequestBody), Key(i, ResponseBody)};
    assert DropKinds(m, i, ks[..3]) == m - {Key(i, RequestBody), Key(i, ResponseBody), Key(i, WsClient)};
  }

  datatype Verdict = Unavailable | Ready | MustWait

  /** A parked call of waitForOutbound. */
  datatype Parking = Parking(ticket: nat, want: Waiter)

  function PhaseOf(v: Verdict): Phase {
    match v
    case Unavailable => Thrown
    case Ready => Returned
    case MustWait => Parked
  }

  /** The event of the wait specification that one look is: the first of its call, or one after a wakeup. */
  function LookEvent(senders: map<nat, Sender>, parking: Parking, canWait: bool): CreditEvent {
    if parking.ticket in senders then Resume(parking.ticket, canWait) else Begin(parking.ticket, parking.want, canWait)
  }

  class CreditController {
    const limits: Limits
    var outboundStreamCredit: map<Key, nat>
    var inboundStreamCredit: map<Key, nat>
    var outboundChannelCredit: map<nat, nat>
    var inboundChannelCredit: map<nat, nat>
    var waiters: set<Parking>
    ghost var senders: map<nat, Sender>

    /** The controller as the wait specification sees it. */
    ghost function Waits(): Waiting
      reads this
    {
      Waiting(Windows(), senders)
    }

    /** waiters holds exactly the parked senders. */
    ghost predicate Tracks()
      reads this
    {
      forall p: Parking :: p in waiters <==> p.ticket in senders && senders[p.ticket] == Sender(p.want, Parked)
    }

    ghost function Windows(): Credit
      reads this
    {
      Credit(outboundStreamCredit, inboundStreamCredit, outboundChannelCredit, inboundChannelCredit)
    }

    constructor (l: Limits)
      ensures limits == l && Windows() == Credit(map[], map[], map[], map[]) && waiters == {}
      ensures Tracks() && senders == map[]
    {
      limits := l;
      outboundStreamCredit, inboundStreamCredit := map[], map[];
      outboundChannelCredit, inboundChannelCredit := map[], map[];
      waiters, senders := {}, map[];
    }

    /** All parked senders leave; woken are those that will look again. */
    method WakeWaiters() returns (woken: set<Parking>)
      modifies this`waiters, this`senders
      ensures woken == old(waiters) && waiters == {}
      ensures senders == Wake(old(senders)) && Tracks()
    {
      woken := waiters;
      waiters, senders := {}, Wake(senders);
    }

    method ResetWindows(dataChannels: nat) returns (woken: set<Parking>)
      modifies this
      ensures Windows() == Reset(dataChannels, limits)
      ensures woken == old(waiters) && waiters == {}
      ensures Waits() == Happen(old(Waits()), limits, DoReset(dataChannels)) && Tracks()
    {
      outboundStreamCredit, inboundStreamCredit := map[], map[];
      outboundChannelCredit, inboundChannelCredit := map[], map[];
      for channelId := 0 to dataChannels
        invariant outboundStreamCredit == map[] && inboundStreamCredit == map[]
        invariant outboundChannelCredit == inboundChannelCredit == FullChannels(channelId, limits.channelCreditBytes)
        invariant waiters == old(waiters) && senders == old(senders)
      {
        outboundChannelCredit := outboundChannelCredit[channelId := limits.channelCreditBytes];
        inboundChannelCredit := inboundChannelCredit[channelId := limits.channelCreditBytes];
      }
      woken := WakeWaiters();
    }

    method SeedStream(streamId: nat)
      modifies this`outboundStreamCredit, this`inboundStreamCredit
      ensures Windows() == Seed(old(Windows()), streamId, limits)
      ensures CanHappen(old(Waits()), DoSeed(streamId)) ==> Waits() == Happen(old(Waits()), limits, DoSeed(streamId))
      ensures old(Tracks()) ==> Tracks()
    {
      for k := 0 to |DATA_KINDS|
        invariant outboundStreamCredit == SetKinds(old(outboundStreamCredit), streamId, limits.streamCreditBytes, DATA_KINDS[..k])
        invariant inboundStreamCredit == SetKinds(old(inboundStreamCredit), streamId, limits.streamCreditBytes, DATA_KINDS[..k])
      {
        assert DATA_KINDS[..k + 1][..k] == DATA_KINDS[..k];
        outboundStreamCredit := outboundStreamCredit[Key(streamId, DATA_KINDS[k]) := limits.streamCreditBytes];
        inboundStreamCredit := inboundStreamCredit[Key(streamId, DATA_KINDS[k]) := limits.streamCreditBytes];
      }
      assert DATA_KINDS[..|DATA_KINDS|] == DATA_KINDS;
      AllKinds(old(outboundStreamCredit), streamId, limits.streamCreditBytes);
      AllKinds(old(inboundStreamCredit), streamId, limits.streamCreditBytes);
    }

    method DeleteStream(streamId: nat) returns (woken: set<Parking>)
      modifies this
      ensures Windows() == Delete(old(Windows()), streamId)
      ensures woken == old(waiters) && waiters == {}
      ensures Waits() == Happen(old(Waits()), limits, DoDelete(streamId)) && Tracks()
    {
      for k := 0 to |DATA_KINDS|
        invariant outboundStreamCredit == DropKinds(old(outboundStreamCredit), streamId, DATA_KINDS[..k])
        invariant inboundStreamCredit == DropKinds(old(inboundStreamCredit), streamId, DATA_KINDS[..k])
        invariant outboundChannelCredit == old(outboundChannelCredit) && inboundChannelCredit == old(inboundChannelCredit)
        invariant waiters == old(waiters) && senders == old(senders)
      {
        assert DATA_KINDS[..k + 1][..k] == DATA_KINDS[..k];
        outboundStreamCredit := outboundStreamCredit - {Key(streamId, DATA_KINDS[k])};
        inboundStreamCredit := inboundStreamCredit - {Key(streamId, DATA_KINDS[k])};
      }
      assert DATA_KINDS[..|DATA_KINDS|] == DATA_KINDS;
      AllKinds(old(outboundStreamCredit), streamId, 0);
      AllKinds(old(inboundStreamCredit), streamId, 0);
      woken := WakeWaiters();
    }

    method ApplyStreamCredit(streamId: nat, kind: DataKind, amount: nat) returns (woken: set<Parking>)
      modifies this
      ensures Windows() == ApplyStream(old(Windows()), streamId, kind, amount)
      ensures woken == old(waiters) && waiters == {}
      ensures Waits() == Happen(old(Waits()), limits, DoApplyStream(streamId, kind, amount)) && Tracks()
    {
      var key := Key(streamId, kind);
      outboundStreamCredit := outboundStreamCredit[key := AddCredit(Get(outboundStreamCredit, key), amount)];
      woken := WakeWaiters();
    }

    method ApplyChannelCredit(channelId: nat, amount: nat) returns (woken: set<Parking>)
      modifies this
      ensures Windows() == ApplyChannel(old(Windows()), channelId, amount)
      ensures woken == old(waiters) && waiters == {}
      ensures Waits() == Happen(old(Waits()), limits, DoApplyChannel(channelId, amount)) && Tracks()
    {
      outboundChannelCredit := outboundChannelCredit[channelId := AddCredit(Get(outboundChannelCredit, channelId), amount)];
      woken := WakeWaiters();
    }

    /** One turn of waitForOutbound: check, and park if a window is too small. The call begins with this
        turn or was woken for it. */
    method LookForCredit(parking: Parking, canWait: bool) returns (verdict: Verdict)
      modifies this`waiters, this`senders
      ensures PhaseOf(verdict) == Look(Windows(), parking.want, canWait).phase
      ensures waiters == if verdict == MustWait then old(waiters) + {parking} else old(waiters)
      ensures var ev := LookEvent(old(senders), parking, canWait);
              CanHappen(old(Waits()), ev) && (ev.Resume? ==> old(senders)[ev.ticket].want == parking.want) ==>
                Waits() == Happen(old(Waits()), limits, ev) && (old(Tracks()) ==> Tracks())
    {
      senders := senders[parking.ticket := Look(Windows(), parking.want, canWait)];
      if !canWait {
        return Unavailable;
      }
      var want := parking.want;
      var key := Key(want.stream, want.kind);
      if Get(outboundStreamCredit, key) >= want.amount && Get(outboundChannelCredit, want.channel) >= want.amount {
        return Ready;
      }
      waiters := waiters + {parking};
      verdict := MustWait;
    }

    /** ok is false when a window was too small; the stream window may then be charged already. */
    method DecrementWindows(streamId: nat, channelId: nat, kind: DataKind, amount: nat) returns (ok: bool)
      modifies this`outboundStreamCredit, this`outboundChannelCredit
      ensures var charged := DecrementOutbound(old(Windows()), streamId, channelId, kind, amount);
              Windows() == charged.credit && ok == charged.ok
      ensures Waits() == Happen(old(Waits()), limits, DoDecrement(streamId, channelId, kind, amount))
    {
      var key := Key(streamId, kind);
      var left := ConsumeCredit(Get(outboundStreamCredit, key), amount);
      if left.None? {
        return false;
      }
      outboundStreamCredit := outboundStreamCredit[key := left.value];
      var channelLeft := ConsumeCredit(Get(outboundChannelCredit, channelId), amount);
      if channelLeft.None? {
        return false;
      }
      outboundChannelCredit := outboundChannelCredit[channelId := channelLeft.value];
      ok := true;
    }

    method ConsumeWindows(streamId: nat, channelId: nat, kind: DataKind, amount: nat) returns (ok: bool)
      modifies this`inboundStreamCredit, this`inboundChannelCredit
      ensures var charged := ConsumeInbound(old(Windows()), streamId, channelId, kind, amount);
              Windows() == charged.credit && ok == charged.ok
      ensures Waits() == Happen(old(Waits()), limits, DoConsume(streamId, channelId, kind, amount))
    {
      var key := Key(streamId, kind);
      var streamCredit := Get(inboundStreamCredit, key);
      var channelCredit := Get(inboundChannelCredit, channelId);
      if streamCredit < amount || channelCredit < amount {
        return false;
      }
      inboundStreamCredit := inboundStreamCredit[key := streamCredit - amount];
      inboundChannelCredit := inboundChannelCredit[channelId := channelCredit - amount];
      ok := true;
    }

    method GrantWindows(streamId: nat, channelId: nat, kind: DataKind, amount: nat) returns (frames: seq<Frame>)
      modifies this`inboundStreamCredit, this`inboundChannelCredit
      ensures Windows() == GrantInbound(old(Windows()), streamId, channelId, kind, amount)
      ensures frames == GrantFrames(streamId, kind, amount)
      ensures Waits() == Happen(old(Waits()), limits, DoGrant(streamId, channelId, kind, amount))
    {
      if amount <= 0 {
        return [];
      }
      var key := Key(streamId, kind);
      inboundStreamCredit := inboundStreamCredit[key := AddCredit(Get(inboundStreamCredit, key), amount)];
      inboundChannelCredit := inboundChannelCredit[channelId := AddCredit(Get(inboundChannelCredit, channelId), amount)];
      frames := [StreamCredit(streamId, kind, amount), ChannelCredit(amount)];
    }
  }
}
