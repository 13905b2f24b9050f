/** What the client holds back for a local WebSocket that is not open yet, under both credit windows. */
module ClientPending {
  import opened Protocol

  datatype Reason = LimitExceeded | EmptyCredit

  /** window is the stream's inbound window and channel its channel's; pending are the lengths queued and bytes
      their count. others are the bytes that other streams of the channel hold without having returned credit. */
  datatype Inbound = Inbound(
    window: nat,
    channel: nat,
    others: nat,
    pending: seq<nat>,
    bytes: nat,
    open: bool,
    aborted: Option<Reason>)

  datatype InboundEvent =
    | Message(length: nat)
    | SocketOpens
    | Flush
    | OtherTakes(n: nat)
    | OtherReturns(n: nat)

  function Start(l: Limits): Inbound {
    Inbound(l.streamCreditBytes, l.channelCreditBytes, 0, [], 0, false, None)
  }

  /** A message passes the check of both windows first; a stream that was aborted sees nothing more. */
  predicate Possible(s: Inbound, l: Limits, ev: InboundEvent) {
    && s.aborted == None
    && match ev
       case Message(n) => n <= s.window && n <= s.channel && n <= l.maxWebSocketMessageBytes
       case SocketOpens => !s.open
       case Flush => s.open && s.pending != []
       case OtherTakes(n) => n <= s.channel
       case OtherReturns(n) => n <= s.others
  }

  /** enqueuePendingInboundFrame. */
  function EnqueueMessage(s: Inbound, l: Limits, n: nat): Inbound {
    if s.bytes + n > l.pendingDataBytes then s.(aborted := Some(LimitExceeded))
    else s.(pending := s.pending + [n], bytes := s.bytes + n)
  }

  /** The message went to the local socket. A zero-byte credit cannot be encoded, so it aborts the stream. */
  function GrantBack(s: Inbound, n: nat): Inbound {
    if n == 0 then s.(aborted := Some(EmptyCredit))
    else s.(window := AddCredit(s.window, n), channel := AddCredit(s.channel, n))
  }

  function Handle(s: Inbound, l: Limits, ev: InboundEvent): Inbound
    requires Possible(s, l, ev)
  {
    match ev
    case Message(n) =>
      var taken := s.(window := s.window - n, channel := s.channel - n);
      if s.open then GrantBack(taken, n) else EnqueueMessage(taken, l, n)
    case SocketOpens => s.(open := true)
    case Flush =>
      var n := s.pending[0];
      GrantBack(s.(pending := s.pending[1..], bytes := if n <= s.bytes then s.bytes - n else 0), n)
    case OtherTakes(n) => s.(channel := s.channel - n, others := s.others + n)
    case OtherReturns(n) => s.(channel := AddCredit(s.channel, n), others := s.others - n)
  }

  function HandleAll(s: Inbound, l: Limits, evs: seq<InboundEvent>): Option<Inbound>
    decreases |evs|
  {
    if evs == [] then Some(s)
    else if Possible(s, l, evs[0]) then HandleAll(Handle(s, l, evs[0]), l, evs[1..])
    else None
  }

  function Sum(lengths: seq<nat>): nat {
    if lengths == [] then 0 else lengths[0] + Sum(lengths[1..])
  }

  lemma {:induction false} SumSnoc(lengths: seq<nat>, n: nat)
    ensures Sum(lengths + [n]) == Sum(lengths) + n
  {
    if lengths != [] {
      assert (lengths + [n])[1..] == lengths[1..] + [n];
      SumSnoc(lengths[1..], n);
    }
  }

  /** Both windows are larger than the buffer. */
  predicate WindowsExceedBuffer(l: Limits) {
    l.streamCreditBytes > l.pendingDataBytes && l.channelCreditBytes > l.pendingDataBytes
  }

  ghost predicate Accounts(s: Inbound, l: Limits) {
    && s.bytes == Sum(s.pending)
    && (s.aborted == None ==>
          s.window + s.bytes == l.streamCreditBytes && s.channel + s.others + s.bytes == l.channelCreditBytes)
    && (s.aborted == Some(LimitExceeded) ==> WindowsExceedBuffer(l))
  }

  lemma HandleAccounts(s: Inbound, l: Limits, ev: InboundEvent)
    requires IsTunnelLimits(l) && Accounts(s, l) && Possible(s, l, ev)
    ensures Accounts(Handle(s, l, ev), l)
  {
    if ev.Message? {
      SumSnoc(s.pending, ev.length);
    }
  }

  lemma {:induction false} HandleAllAccounts(s: Inbound, l: Limits, evs: seq<InboundEvent>, t: Inbound)
    requires IsTunnelLimits(l) && Accounts(s, l) && HandleAll(s, l, evs) == Some(t)
    ensures Accounts(t, l)
    decreases |evs|
  {
    if evs != [] {
      HandleAccounts(s, l, evs[0]);
      HandleAllAccounts(Handle(s, l, evs[0]), l, evs[1..], t);
    }
  }

  /** Messages of one byte while the local socket stays closed. */
  lemma {:induction false} BytesPileUp(s: Inbound, l: Limits, left: nat) returns (evs: seq<InboundEvent>, t: Inbound)
    requires IsTunnelLimits(l) && !s.open && s.aborted == None && s.bytes + left == l.pendingDataBytes + 1
    requires 0 < left <= s.window && left <= s.channel
    ensures HandleAll(s, l, evs) == Some(t) && t.aborted == Some(LimitExceeded)
    decreases left
  {
    var u := Handle(s, l, Message(1));
    if left == 1 {
      evs, t := [Message(1)], u;
      assert evs[1..] == [];
    } else {
      evs, t := BytesPileUp(u, l, left - 1);
      assert ([Message(1)] + evs)[1..] == evs;
      evs := [Message(1)] + evs;
    }
  }

  /** This run ends in the pending-limit abort. */
  predicate Overruns(l: Limits, evs: seq<InboundEvent>) {
    HandleAll(Start(l), l, evs).Some? && HandleAll(Start(l), l, evs).value.aborted == Some(LimitExceeded)
  }

  /** The pending-limit abort can happen if and only if the stream window and the channel window are both larger
      than the buffer. */
  lemma PendingAbortExactly(l: Limits)
    requires IsTunnelLimits(l)
    ensures (exists evs: seq<InboundEvent> :: Overruns(l, evs)) <==> WindowsExceedBuffer(l)
  {
    if WindowsExceedBuffer(l) {
      var evs, t := BytesPileUp(Start(l), l, l.pendingDataBytes + 1);
      assert Overruns(l, evs);
    }
    forall evs: seq<InboundEvent> | Overruns(l, evs) ensures WindowsExceedBuffer(l) {
      HandleAllAccounts(Start(l), l, evs, HandleAll(Start(l), l, evs).value);
    }
  }

  /** What is held back is exactly what the stream's window lacks, and with the other streams' share what the
      channel's window lacks; the count of bytes is the sum of the lengths queued. */
  lemma PendingAccounting(l: Limits, evs: seq<InboundEvent>, t: Inbound)
    requires IsTunnelLimits(l) && HandleAll(Start(l), l, evs) == Some(t)
    ensures t.bytes == Sum(t.pending)
    ensures t.aborted == None ==>
              t.window + t.bytes == l.streamCreditBytes && t.channel + t.others + t.bytes == l.channelCreditBytes
  {
    HandleAllAccounts(Start(l), l, evs, t);
  }
}
