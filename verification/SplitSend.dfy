/** One direction of one data channel, without atomic sends: a sender checks both windows, others may run,
    then its frame goes out and only then are the windows charged. Both ends are here, with the data, the
    credit and the mistakes that are under way between them. */
module SplitSend {
  import opened Protocol
  import opened CreditSpec

  datatype Flow = Flow(stream: nat, kind: DataKind)

  /** A chunk of a flow, wherever it is. */
  datatype Datum = Datum(flow: Flow, amount: nat)

  /** checked are chunks between check and send, wire those sent, held those taken by the peer whose credit
      it has not returned. Credit returned travels in streamBack and channelBack. overdrawn counts the
      bytes whose decrement threw, capped the credit cut off at the maximum; no event looks at these counts. */
  datatype Split = Split(
    channel: nat,
    credit: Credit,
    peer: Credit,
    issued: set<nat>,
    live: set<nat>,
    peerIssued: set<nat>,
    peerLive: set<nat>,
    checked: seq<Datum>,
    wire: seq<Datum>,
    held: seq<Datum>,
    streamBack: seq<Datum>,
    channelBack: seq<Datum>,
    stale: nat,
    lost: nat,
    overdrawn: nat,
    capped: nat,
    violated: bool)

  /** Open and Close happen at the sender, PeerOpen and PeerClose at the receiver. Commit sends the chunk
      checked[k] and charges for it; Return gives back the credit of held[k], Discard drops it. */
  datatype SendEvent =
    | Open(stream: nat)
    | Close(stream: nat)
    | PeerOpen(stream: nat)
    | PeerClose(stream: nat)
    | Check(chunk: Datum)
    | Commit(k: nat)
    | Arrive
    | Return(k: nat)
    | Discard(k: nat)
    | StreamCreditArrives
    | ChannelCreditArrives

  function Fresh(channels: nat, c: nat, l: Limits): Split {
    Split(c, Reset(channels, l), Reset(channels, l), {}, {}, {}, {}, [], [], [], [], [], 0, 0, 0, 0, false)
  }

  function KeyOf(f: Flow): Key {
    Key(f.stream, f.kind)
  }

  function Out(s: Split): nat {
    Get(s.credit.outChannel, s.channel)
  }

  function In(s: Split): nat {
    Get(s.peer.inChannel, s.channel)
  }

  function StreamOut(s: Split, f: Flow): nat {
    Get(s.credit.outStream, KeyOf(f))
  }

  function StreamIn(s: Split, f: Flow): nat {
    Get(s.peer.inStream, KeyOf(f))
  }

  predicate HasFlow(ds: seq<Datum>, f: Flow) {
    exists k :: 0 <= k < |ds| && ds[k].flow == f
  }

  function Drop(ds: seq<Datum>, k: nat): seq<Datum>
    requires k < |ds|
  {
    ds[..k] + ds[k + 1..]
  }

  /** The bytes of one flow, or of all of them. */
  function Sum(ds: seq<Datum>, sel: Option<Flow>): nat {
    if ds == [] then 0
    else Sum(ds[1..], sel) + if sel.None? || sel.value == ds[0].flow then ds[0].amount else 0
  }

  function Charge(s: Split, d: Datum): Charged {
    DecrementOutbound(s.credit, d.flow.stream, s.channel, d.flow.kind, d.amount)
  }

  function Accept(s: Split, d: Datum): Charged {
    ConsumeInbound(s.peer, d.flow.stream, s.channel, d.flow.kind, d.amount)
  }

  predicate Allowed(s: Split, l: Limits, ev: SendEvent) {
    && !s.violated
    && match ev
       case Open(i) => i !in s.issued
       case Close(i) => i in s.live
       case PeerOpen(i) => i !in s.peerIssued
       case PeerClose(i) => i in s.peerLive
       case Check(d) =>
         && !HasFlow(s.checked, d.flow) && d.flow.stream in s.live && d.amount <= l.maxFrameBytes
         && HasOutbound(s.credit, d.flow.stream, s.channel, d.flow.kind, d.amount)
       case Commit(k) => k < |s.checked|
       case Arrive => s.wire != [] && s.wire[0].flow.stream in s.peerIssued
       case Return(k) => k < |s.held|
       case Discard(k) => k < |s.held|
       case StreamCreditArrives => s.streamBack != []
       case ChannelCreditArrives => s.channelBack != []
  }

  function Post(s: Split, k: nat): Split
    requires k < |s.checked|
  {
    var d := s.checked[k];
    s.(wire := s.wire + [d], checked := Drop(s.checked, k), credit := Charge(s, d).credit,
       overdrawn := s.overdrawn + if Charge(s, d).ok then 0 else d.amount)
  }

  /** The peer takes the head of the wire into its books. */
  function Received(s: Split): Split
    requires s.wire != []
  {
    s.(wire := s.wire[1..], peer := Accept(s, s.wire[0]).credit, held := s.held + [s.wire[0]])
  }

  /** The peer ignores data of a stream it has closed, and gives up the connection for want of credit. */
  function Take(s: Split): Split
    requires s.wire != []
  {
    var d := s.wire[0];
    if d.flow.stream !in s.peerLive then s.(wire := s.wire[1..], stale := s.stale + d.amount)
    else if !Accept(s, d).ok then s.(violated := true)
    else Received(s)
  }

  function GiveBack(s: Split, k: nat): Split
    requires k < |s.held|
  {
    var d := s.held[k];
    var back := if d.amount == 0 then [] else [d];
    s.(peer := GrantInbound(s.peer, d.flow.stream, s.channel, d.flow.kind, d.amount), held := Drop(s.held, k),
       streamBack := s.streamBack + back, channelBack := s.channelBack + back)
  }

  function Credited(s: Split): Split
    requires s.channelBack != []
  {
    var n := s.channelBack[0].amount;
    s.(credit := ApplyChannel(s.credit, s.channel, n), channelBack := s.channelBack[1..],
       capped := s.capped + (Out(s) + n - AddCredit(Out(s), n)))
  }

  function Do(s: Split, l: Limits, ev: SendEvent): Split
    requires Allowed(s, l, ev)
  {
    match ev
    case Open(i) => s.(credit := Seed(s.credit, i, l), issued := s.issued + {i}, live := s.live + {i})
    case Close(i) => s.(credit := Delete(s.credit, i), live := s.live - {i})
    case PeerOpen(i) => s.(peer := Seed(s.peer, i, l), peerIssued := s.peerIssued + {i}, peerLive := s.peerLive + {i})
    case PeerClose(i) => s.(peer := Delete(s.peer, i), peerLive := s.peerLive - {i})
    case Check(d) => s.(checked := s.checked + [d])
    case Commit(k) => Post(s, k)
    case Arrive => Take(s)
    case Return(k) => GiveBack(s, k)
    case Discard(k) => s.(held := Drop(s.held, k), lost := s.lost + s.held[k].amount)
    case StreamCreditArrives =>
      var d := s.streamBack[0];
      s.(credit := ApplyStream(s.credit, d.flow.stream, d.flow.kind, d.amount), streamBack := s.streamBack[1..])
    case ChannelCreditArrives => Credited(s)
  }

  function DoAll(s: Split, l: Limits, evs: seq<SendEvent>): Option<Split>
    decreases |evs|
  {
    if evs == [] then Some(s)
    else if Allowed(s, l, evs[0]) then DoAll(Do(s, l, evs[0]), l, evs[1..])
    else None
  }

  // ----- sums -----

  lemma {:induction false} SumAppend(a: seq<Datum>, b: seq<Datum>, sel: Option<Flow>)
    ensures Sum(a + b, sel) == Sum(a, sel) + Sum(b, sel)
  {
    if a == [] {
      assert a + b == b;
    } else {
      assert (a + b)[1..] == a[1..] + b;
      SumAppend(a[1..], b, sel);
    }
  }

  lemma SumSnoc(a: seq<Datum>, d: Datum, sel: Option<Flow>)
    ensures Sum(a + [d], sel) == Sum(a, sel) + if sel.None? || sel.value == d.flow then d.amount else 0
  {
    SumAppend(a, [d], sel);
  }

  lemma SumDrop(a: seq<Datum>, k: nat, sel: Option<Flow>)
    requires k < |a|
    ensures Sum(a, sel) == Sum(Drop(a, k), sel) + if sel.None? || sel.value == a[k].flow then a[k].amount else 0
  {
    SumAppend(a[..k], a[k..], sel);
    SumAppend(a[..k], a[k + 1..], sel);
    assert a == a[..k] + a[k..] && a[k..][1..] == a[k + 1..];
  }

  lemma {:induction false} SumOfNone(ds: seq<Datum>, f: Flow)
    requires !HasFlow(ds, f)
    ensures Sum(ds, Some(f)) == 0
  {
    if ds != [] {
      assert ds[0].flow != f;
      assert forall k :: 0 <= k < |ds| - 1 ==> ds[1..][k] == ds[k + 1];
      SumOfNone(ds[1..], f);
    }
  }

  // ----- the channel ledger -----

  /** Sender's window, data and credit under way, and what went wrong, against the receiver's window. */
  ghost predicate ChannelBooks(s: Split, l: Limits) {
    && Out(s) + Sum(s.wire, None) + Sum(s.channelBack, None) + s.stale + s.capped == In(s) + s.overdrawn
    && In(s) + Sum(s.held, None) + s.lost == l.channelCreditBytes
  }

  lemma PostBooks(s: Split, l: Limits, k: nat)
    requires ChannelBooks(s, l) && k < |s.checked|
    ensures ChannelBooks(Post(s, k), l)
  {
    SumSnoc(s.wire, s.checked[k], None);
  }

  lemma Accepted(s: Split, d: Datum)
    requires Accept(s, d).ok
    ensures d.amount <= In(s) && d.amount <= StreamIn(s, d.flow)
    ensures Get(Accept(s, d).credit.inChannel, s.channel) == In(s) - d.amount
    ensures forall f: Flow :: Get(Accept(s, d).credit.inStream, KeyOf(f)) == if f == d.flow then StreamIn(s, f) - d.amount else StreamIn(s, f)
  {
  }

  lemma ReceivedBooks(s: Split, l: Limits)
    requires ChannelBooks(s, l) && s.wire != [] && Accept(s, s.wire[0]).ok
    ensures ChannelBooks(Received(s), l)
  {
    SumSnoc(s.held, s.wire[0], None);
    Accepted(s, s.wire[0]);
  }

  lemma TakeBooks(s: Split, l: Limits)
    requires ChannelBooks(s, l) && s.wire != []
    ensures ChannelBooks(Take(s), l)
  {
    if s.wire[0].flow.stream in s.peerLive && Accept(s, s.wire[0]).ok {
      ReceivedBooks(s, l);
    }
  }

  lemma GiveBackBooks(s: Split, l: Limits, k: nat)
    requires ChannelBooks(s, l) && k < |s.held| && IsTunnelLimits(l)
    ensures ChannelBooks(GiveBack(s, k), l)
  {
    var d := s.held[k];
    SumDrop(s.held, k, None);
    SumSnoc(s.channelBack, d, None);
    assert s.channelBack + [] == s.channelBack;
  }

  lemma DoBooks(s: Split, l: Limits, ev: SendEvent)
    requires ChannelBooks(s, l) && IsTunnelLimits(l) && Allowed(s, l, ev)
    ensures ChannelBooks(Do(s, l, ev), l)
  {
    match ev
    case Commit(k) => PostBooks(s, l, k);
    case Arrive => TakeBooks(s, l);
    case Return(k) => GiveBackBooks(s, l, k);
    case Discard(k) => SumDrop(s.held, k, None);
    case Open(_) =>
    case Close(_) =>
    case PeerOpen(_) =>
    case PeerClose(_) =>
    case Check(_) =>
    case StreamCreditArrives =>
    case ChannelCreditArrives =>
  }

  // ----- the books of one flow -----

  predicate PeerExpects(s: Split, f: Flow) {
    f.stream in s.peerLive || f.stream !in s.peerIssued
  }

  function PeerWindow(s: Split, l: Limits, f: Flow): nat {
    if f.stream in s.peerIssued then StreamIn(s, f) else l.streamCreditBytes
  }

  /** What the flow may still put on the wire without asking for more credit. */
  function Reserve(s: Split, l: Limits, f: Flow): nat {
    if f.stream !in s.issued then l.streamCreditBytes
    else if f.stream in s.live then StreamOut(s, f) + Sum(s.streamBack, Some(f))
    else Sum(s.checked, Some(f))
  }

  /** Whatever of the flow is sent or may be sent finds its window at the peer; a chunk that passed its check
      still has its window at the sender. */
  ghost predicate FlowBooks(s: Split, l: Limits, f: Flow) {
    && (PeerExpects(s, f) ==>
          && Sum(s.wire, Some(f)) + Reserve(s, l, f) <= PeerWindow(s, l, f)
          && PeerWindow(s, l, f) + Sum(s.held, Some(f)) <= l.streamCreditBytes)
    && (f.stream in s.live ==> Sum(s.checked, Some(f)) <= StreamOut(s, f))
    && StreamOut(s, f) <= MAX_CREDIT_BYTES
    && (f.stream !in s.issued ==>
          Sum(s.wire, Some(f)) == 0 && Sum(s.streamBack, Some(f)) == 0 && Sum(s.held, Some(f)) == 0 && Sum(s.checked, Some(f)) == 0)
  }

  /** A flow has one sender, so at most one checked chunk. */
  ghost predicate OneChunkEach(ds: seq<Datum>) {
    forall j, k :: 0 <= j < k < |ds| ==> ds[j].flow != ds[k].flow
  }

  ghost predicate FlowsBalance(s: Split, l: Limits) {
    && OneChunkEach(s.checked)
    && s.live <= s.issued && s.peerLive <= s.peerIssued
    && (forall k :: 0 <= k < |s.checked| ==> s.checked[k].flow.stream in s.issued)
    && (forall k :: 0 <= k < |s.wire| ==> s.wire[k].flow.stream in s.issued)
    && (forall k :: 0 <= k < |s.held| ==> s.held[k].flow.stream in s.issued)
    && (forall k :: 0 <= k < |s.streamBack| ==> s.streamBack[k].flow.stream in s.issued)
    && forall f: Flow :: FlowBooks(s, l, f)
  }

  lemma WindowFlow(s: Split, l: Limits, ev: SendEvent, f: Flow)
    requires FlowBooks(s, l, f) && IsTunnelLimits(l) && Allowed(s, l, ev)
    requires s.live <= s.issued && s.peerLive <= s.peerIssued
    requires ev.Open? || ev.Close? || ev.PeerOpen? || ev.PeerClose? || ev.ChannelCreditArrives?
    ensures FlowBooks(Do(s, l, ev), l, f)
  {
    if ev.PeerOpen? {
      Seeding(s.peer, ev.stream, l, f);
      assert FlowBooks(Do(s, l, ev), l, f);
    } else if ev.Open? {
      Seeding(s.credit, ev.stream, l, f);
      assert FlowBooks(Do(s, l, ev), l, f);
    } else if ev.PeerClose? {
      Deleting(s.peer, ev.stream, f);
      assert FlowBooks(Do(s, l, ev), l, f);
    } else if ev.Close? {
      Deleting(s.credit, ev.stream, f);
      assert FlowBooks(Do(s, l, ev), l, f);
    }
  }

  lemma Seeding(cr: Credit, i: nat, l: Limits, f: Flow)
    ensures Get(Seed(cr, i, l).outStream, KeyOf(f)) == if f.stream == i then l.streamCreditBytes else Get(cr.outStream, KeyOf(f))
    ensures Get(Seed(cr, i, l).inStream, KeyOf(f)) == if f.stream == i then l.streamCreditBytes else Get(cr.inStream, KeyOf(f))
  {
    var k := f.kind;
    assert k == RequestBody || k == ResponseBody || k == WsClient || k == WsServer;
  }

  lemma Deleting(cr: Credit, i: nat, f: Flow)
    ensures Get(Delete(cr, i).outStream, KeyOf(f)) == if f.stream == i then 0 else Get(cr.outStream, KeyOf(f))
    ensures Get(Delete(cr, i).inStream, KeyOf(f)) == if f.stream == i then 0 else Get(cr.inStream, KeyOf(f))
  {
    var k := f.kind;
    assert k == RequestBody || k == ResponseBody || k == WsClient || k == WsServer;
  }

  lemma CheckFlow(s: Split, l: Limits, d: Datum, f: Flow)
    requires FlowBooks(s, l, f) && Allowed(s, l, Check(d)) && s.live <= s.issued
    ensures FlowBooks(Do(s, l, Check(d)), l, f)
  {
    SumSnoc(s.checked, d, Some(f));
    if f == d.flow {
      SumOfNone(s.checked, f);
    }
  }

  lemma Charging(s: Split, d: Datum, f: Flow)
    ensures var left := Get(Charge(s, d).credit.outStream, KeyOf(f));
            left == if f == d.flow && d.amount <= StreamOut(s, f) then StreamOut(s, f) - d.amount else StreamOut(s, f)
  {
  }

  lemma CommitFlow(s: Split, l: Limits, k: nat, f: Flow)
    requires FlowBooks(s, l, f) && k < |s.checked| && s.live <= s.issued && s.checked[k].flow.stream in s.issued
    ensures FlowBooks(Post(s, k), l, f)
  {
    var d := s.checked[k];
    SumSnoc(s.wire, d, Some(f));
    SumDrop(s.checked, k, Some(f));
    Charging(s, d, f);
  }

  lemma ReceivedFlow(s: Split, l: Limits, f: Flow)
    requires FlowBooks(s, l, f) && s.wire != [] && Accept(s, s.wire[0]).ok
    requires s.wire[0].flow.stream in s.peerLive && s.wire[0].flow.stream in s.peerIssued && s.wire[0].flow.stream in s.issued
    ensures FlowBooks(Received(s), l, f)
  {
    SumSnoc(s.held, s.wire[0], Some(f));
    Accepted(s, s.wire[0]);
  }

  lemma ArriveFlow(s: Split, l: Limits, f: Flow)
    requires FlowBooks(s, l, f) && s.wire != [] && s.wire[0].flow.stream in s.peerIssued && s.wire[0].flow.stream in s.issued
    ensures FlowBooks(Take(s), l, f)
  {
    if s.wire[0].flow.stream in s.peerLive && Accept(s, s.wire[0]).ok {
      ReceivedFlow(s, l, f);
    }
  }

  lemma ReturnFlow(s: Split, l: Limits, k: nat, f: Flow)
    requires FlowBooks(s, l, f) && k < |s.held| && IsTunnelLimits(l) && s.held[k].flow.stream in s.issued && s.peerLive <= s.peerIssued
    ensures FlowBooks(GiveBack(s, k), l, f)
  {
    var d := s.held[k];
    SumDrop(s.held, k, Some(f));
    SumSnoc(s.streamBack, d, Some(f));
    assert s.streamBack + [] == s.streamBack;
  }

  lemma DropFlow(s: Split, l: Limits, ev: SendEvent, f: Flow)
    requires FlowBooks(s, l, f) && IsTunnelLimits(l) && Allowed(s, l, ev) && (ev.Discard? || ev.StreamCreditArrives?)
    requires ev.StreamCreditArrives? ==> s.streamBack[0].flow.stream in s.issued
    ensures FlowBooks(Do(s, l, ev), l, f)
  {
    if ev.Discard? {
      SumDrop(s.held, ev.k, Some(f));
    }
  }

  lemma DoFlow(s: Split, l: Limits, ev: SendEvent, f: Flow)
    requires FlowsBalance(s, l) && IsTunnelLimits(l) && Allowed(s, l, ev)
    ensures FlowBooks(Do(s, l, ev), l, f)
  {
    match ev
    case Check(d) => CheckFlow(s, l, d, f);
    case Commit(k) => CommitFlow(s, l, k, f);
    case Arrive => ArriveFlow(s, l, f);
    case Return(k) => ReturnFlow(s, l, k, f);
    case Discard(_) => DropFlow(s, l, ev, f);
    case StreamCreditArrives => DropFlow(s, l, ev, f);
    case Open(_) => WindowFlow(s, l, ev, f);
    case Close(_) => WindowFlow(s, l, ev, f);
    case PeerOpen(_) => WindowFlow(s, l, ev, f);
    case PeerClose(_) => WindowFlow(s, l, ev, f);
    case ChannelCreditArrives => WindowFlow(s, l, ev, f);
  }

  lemma DoOneChunkEach(s: Split, l: Limits, ev: SendEvent)
    requires OneChunkEach(s.checked) && Allowed(s, l, ev)
    ensures OneChunkEach(Do(s, l, ev).checked)
  {
    if ev.Commit? {
      var rest := Drop(s.checked, ev.k);
      assert forall j :: 0 <= j < |rest| ==> rest[j] == s.checked[if j < ev.k then j else j + 1];
    }
  }

  lemma DoFlows(s: Split, l: Limits, ev: SendEvent)
    requires FlowsBalance(s, l) && IsTunnelLimits(l) && Allowed(s, l, ev)
    ensures FlowsBalance(Do(s, l, ev), l)
  {
    DoOneChunkEach(s, l, ev);
    forall f: Flow ensures FlowBooks(Do(s, l, ev), l, f) {
      DoFlow(s, l, ev, f);
    }
  }

  /** Everything that holds however sends interleave. */
  ghost predicate SplitInv(s: Split, l: Limits) {
    IsTunnelLimits(l) && ChannelBooks(s, l) && FlowsBalance(s, l)
  }

  lemma {:induction false} RunKeeps(s: Split, l: Limits, evs: seq<SendEvent>, t: Split)
    requires SplitInv(s, l) && DoAll(s, l, evs) == Some(t)
    ensures SplitInv(t, l) && t.channel == s.channel
    decreases |evs|
  {
    if evs != [] {
      DoBooks(s, l, evs[0]);
      DoFlows(s, l, evs[0]);
      RunKeeps(Do(s, l, evs[0]), l, evs[1..], t);
    }
  }
}
