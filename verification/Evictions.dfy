/** When a client can forget a closed stream, and what follows for whole runs. */
module Evictions {
  import opened Protocol
  import opened CreditSpec
  import opened TombstoneSpec
  import opened TombstoneLemmas
  import opened Frames
  import opened ServerSpec
  import opened ClientSpec
  import opened ClientHonest
  import opened System
  import opened Runs

  /** Tombstones are distinct, name only streams that started here and are no longer live, and one is
      missing only when the memory is full. */
  ghost predicate ClosedInv(cl: Client) {
    && NoDup(cl.closed) && |cl.closed| <= MAX_REMEMBERED_CLOSED_STREAMS
    && (forall i :: i in cl.streams ==> i in cl.homes)
    && (forall i :: i in cl.closed ==> i in cl.homes && i !in cl.streams)
    && (forall i :: i in cl.homes && i !in cl.streams && i !in cl.closed ==> |cl.closed| == MAX_REMEMBERED_CLOSED_STREAMS)
  }

  /** How a step may change the sets of ids: not at all, by closing i, or by starting the new id i. */
  ghost predicate SameIds(cl: Client, cl': Client) {
    cl'.streams.Keys == cl.streams.Keys && cl'.closed == cl.closed && cl'.homes.Keys == cl.homes.Keys
  }

  ghost predicate Closes(cl: Client, cl': Client, i: nat) {
    && i in cl.streams && cl'.streams.Keys == cl.streams.Keys - {i}
    && cl'.closed == Remember(cl.closed, i) && cl'.homes.Keys == cl.homes.Keys
  }

  ghost predicate Starts(cl: Client, cl': Client, i: nat) {
    && i !in cl.homes && cl'.streams.Keys == cl.streams.Keys + {i}
    && cl'.closed == Forget(cl.closed, i) && cl'.homes.Keys == cl.homes.Keys + {i}
  }

  ghost predicate IdStep(cl: Client, cl': Client, i: nat) {
    SameIds(cl, cl') || Closes(cl, cl', i) || Starts(cl, cl', i)
  }

  lemma CloseKeeps(cl: Client, cl': Client, i: nat)
    requires ClosedInv(cl) && Closes(cl, cl', i)
    ensures ClosedInv(cl')
  {
    RememberFresh(cl.closed, i);
    forall j | j in cl'.streams ensures j in cl'.homes {
      assert j in cl'.streams.Keys;
    }
    forall j | j in cl'.closed ensures j in cl'.homes && j !in cl'.streams {
      assert j == i || j in cl.closed;
      assert j in cl.homes.Keys;
      assert j !in cl'.streams.Keys;
    }
    forall j | j in cl'.homes && j !in cl'.streams && j !in cl'.closed ensures |cl'.closed| == MAX_REMEMBERED_CLOSED_STREAMS {
      assert j in cl.homes.Keys;
      if j !in cl.closed {
        assert j !in cl'.streams.Keys;
        assert j !in cl.streams.Keys;
      }
    }
  }

  lemma StartKeeps(cl: Client, cl': Client, i: nat)
    requires ClosedInv(cl) && Starts(cl, cl', i)
    ensures ClosedInv(cl')
  {
    ForgetAbsent(cl.closed, i);
    forall j | j in cl'.streams ensures j in cl'.homes {
      assert j in cl'.streams.Keys;
    }
    forall j | j in cl'.closed ensures j in cl'.homes && j !in cl'.streams {
      assert j in cl.homes.Keys && j !in cl'.streams.Keys;
    }
    forall j | j in cl'.homes && j !in cl'.streams && j !in cl'.closed ensures |cl'.closed| == MAX_REMEMBERED_CLOSED_STREAMS {
      assert j in cl'.homes.Keys && j !in cl'.streams.Keys;
      assert j in cl.homes.Keys && j !in cl.streams.Keys;
    }
  }

  lemma SameKeeps(cl: Client, cl': Client)
    requires ClosedInv(cl) && SameIds(cl, cl')
    ensures ClosedInv(cl')
  {
    assert forall j :: j in cl'.streams <==> j in cl'.streams.Keys;
    assert forall j :: j in cl'.homes <==> j in cl'.homes.Keys;
  }

  lemma IdStepKeeps(cl: Client, cl': Client, i: nat)
    requires ClosedInv(cl) && IdStep(cl, cl', i)
    ensures ClosedInv(cl')
  {
    if SameIds(cl, cl') {
      SameKeeps(cl, cl');
    } else if Closes(cl, cl', i) {
      CloseKeeps(cl, cl', i);
    } else {
      StartKeeps(cl, cl', i);
    }
  }

  /** Which stream a client event is about. */
  function Subject(cl: Client, ev: ClientEvent): nat {
    match ev
    case ReceiveDown(_, f) => if f.ChannelCredit? then 0 else f.streamId
    case WriteDone(c) => if c in cl.busy then cl.busy[c].stream else 0
    case WriteFail(c) => if c in cl.busy then cl.busy[c].stream else 0
    case _ => ev.i
  }

  lemma CleanupIds(cl: Client, i: nat)
    ensures IdStep(cl, CleanupClient(cl, i), i)
  {
    if i in cl.streams {
      assert CleanupClient(cl, i).streams.Keys == cl.streams.Keys - {i};
    }
  }

  lemma DataIds(cl: Client, i: nat, c: nat, seqNo: nat, flags: nat, payload: bytes)
    requires i in cl.streams
    ensures IdStep(cl, ReceiveRequestData(cl, i, c, seqNo, flags, payload).client, i)
  {
    var cl1 := AcceptRequestData(cl, i, c, |payload|);
    assert cl1.streams.Keys == cl.streams.Keys;
    var cl2 := cl1.(lost := Bump(cl.lost, c, |payload|));
    CleanupIds(cl2, i);
  }

  lemma DispatchIds(cl: Client, c: nat, f: Frame)
    requires !f.ChannelCredit? && f.streamId in cl.streams
    ensures IdStep(cl, DispatchRequestFrame(cl, c, f).client, f.streamId)
  {
    var i := f.streamId;
    match f
    case RequestData(_, seqNo, flags, payload) => DataIds(cl, i, c, seqNo, flags, payload);
    case RequestEnd(_, kind, lastSeq) =>
      assert EndRequest(cl, i, lastSeq).streams.Keys == cl.streams.Keys;
      CleanupIds(EndRequest(cl, i, lastSeq), i);
    case RequestAbort(_) => CleanupIds(cl, i);
    case _ =>
  }

  lemma StartIds(cl: Client, l: Limits, c: nat, i: nat, hasBody: bool)
    requires i !in cl.homes && i !in cl.streams
    ensures IdStep(cl, StartRequest(cl, l, c, i, hasBody).client, i)
  {
    var cl' := StartRequest(cl, l, c, i, hasBody).client;
    assert cl'.streams.Keys == cl.streams.Keys + {i};
    assert cl'.homes.Keys == cl.homes.Keys + {i};
  }

  lemma ReceiveIds(cl: Client, l: Limits, c: nat, f: Frame)
    requires f.RequestStart? ==> f.streamId !in cl.homes && f.streamId !in cl.streams
    ensures IdStep(cl, ReceiveFrame(cl, l, c, f).client, Subject(cl, ReceiveDown(c, f)))
  {
    if !IsResponse(f) && !f.ChannelCredit? && !f.StreamCredit? && f.streamId !in cl.closed {
      if f.RequestStart? {
        StartIds(cl, l, c, f.streamId, f.hasBody);
      } else if f.streamId in cl.streams && cl.streams[f.streamId].channel == c {
        DispatchIds(cl, c, f);
      }
    }
  }

  lemma OwnIds(cl: Client, l: Limits, ev: ClientEvent)
    requires ClientEnabled(cl, l, ev) && !ev.ReceiveDown?
    ensures IdStep(cl, ClientStep(cl, l, ev).client, Subject(cl, ev))
  {
    match ev
    case WriteDone(c) =>
      var i := cl.busy[c].stream;
      CleanupIds(cl.(busy := cl.busy - {c}, written := cl.written[i := GetBytes(cl.written, i) + cl.busy[c].payload],
                     credit := GrantInbound(cl.credit, i, c, RequestBody, |cl.busy[c].payload|)), i);
    case WriteFail(c) => CleanupIds(cl.(busy := cl.busy - {c}, lost := Bump(cl.lost, c, |cl.busy[c].payload|)), cl.busy[c].stream);
    case UpstreamEnd(i) => CleanupIds(cl, i);
    case UpstreamFail(i) => CleanupIds(cl, i);
    case Respond(_, _) => assert ClientStep(cl, l, ev).client.streams.Keys == cl.streams.Keys;
    case UpstreamRead(_, _) => assert ClientStep(cl, l, ev).client.streams.Keys == cl.streams.Keys;
    case UpstreamSend(_) => assert ClientStep(cl, l, ev).client.streams.Keys == cl.streams.Keys;
  }

  /** Which stream a step of the system is about, at the client. */
  function About(t: Sys, ev: SysEvent): nat {
    match ev
    case ClientActs(cev) => Subject(t.client, cev)
    case DeliverDown(c) => if HasHead(t.down, c) then Subject(t.client, ReceiveDown(c, Head(t.down, c))) else 0
    case _ => 0
  }

  lemma NextIds(t: Sys, l: Limits, ev: SysEvent)
    requires SysInv(t, l) && ClosedInv(t.client) && CanStep(t, l, ev)
    ensures IdStep(t.client, Next(t, l, ev).sys.client, About(t, ev))
  {
    match ev
    case ServerActs(_) =>
    case DeliverUp(_) =>
    case ClientActs(cev) => OwnIds(t.client, l, cev);
    case DeliverDown(c) =>
      var f := Head(t.down, c);
      DownIsHonest(t, l, c);
      if !f.ChannelCredit? {
        KnownOrFirst(t.client, l, Received(t.down), Sent(t.up), c, f);
      }
      ReceiveIds(t.client, l, c, f);
  }

  lemma NextKeepsClosed(t: Sys, l: Limits, ev: SysEvent)
    requires SysInv(t, l) && ClosedInv(t.client) && CanStep(t, l, ev)
    ensures ClosedInv(Next(t, l, ev).sys.client)
  {
    NextIds(t, l, ev);
    IdStepKeeps(t.client, Next(t, l, ev).sys.client, About(t, ev));
  }

  lemma {:induction false} ReachedClosed(channels: nat, l: Limits, evs: seq<SysEvent>, t: Sys)
    requires Reached(channels, l, evs, t)
    ensures ClosedInv(t.client)
    decreases |evs|
  {
    if evs != [] {
      var n := |evs| - 1;
      var s := After(InitSys(channels, l), l, evs[..n]).value;
      ReachedClosed(channels, l, evs[..n], s);
      ReachedInv(channels, l, evs[..n], s);
      NextKeepsClosed(s, l, evs[n]);
    }
  }

  lemma {:induction false} CountBelow(ids: set<nat>, n: nat)
    requires forall i :: i in ids ==> 1 <= i < n
    ensures |ids| <= if n == 0 then 0 else n - 1
    decreases n
  {
    if n == 0 {
      assert !exists i :: i in ids;
      assert ids == {};
    } else {
      var below := ids - {n - 1};
      CountBelow(below, n - 1);
      if n - 1 in ids {
        assert ids == below + {n - 1};
      } else {
        assert ids == below;
      }
    }
  }

  /** Every stream the client knows has an id the server has issued. */
  lemma KnownIdsIssued(t: Sys, l: Limits, i: nat)
    requires SysInv(t, l) && i in t.client.homes
    ensures 1 <= i < t.server.nextStreamId
  {
    HomesAgree(t, l, i);
  }

  lemma FullMemoryNeedsManyIds(closed: seq<nat>, i: nat, n: nat)
    requires NoDup(closed) && i !in closed && 1 <= i < n && forall j :: j in closed ==> 1 <= j < n
    ensures |closed| + 1 < n
  {
    ToSetSize(closed);
    CountBelow(ToSet(closed) + {i}, n);
  }

  /** A stream can be forgotten only after 4096 other streams were closed. */
  lemma EvictionNeedsManyStreams(channels: nat, l: Limits, evs: seq<SysEvent>, t: Sys, f: Frame)
    requires Reached(channels, l, evs, t) && Evicted(t.client, f)
    ensures |t.client.closed| == MAX_REMEMBERED_CLOSED_STREAMS
    ensures t.server.nextStreamId > MAX_REMEMBERED_CLOSED_STREAMS + 1
  {
    ReachedInv(channels, l, evs, t);
    ReachedClosed(channels, l, evs, t);
    forall i | i in t.client.homes ensures 1 <= i < t.server.nextStreamId {
      KnownIdsIssued(t, l, i);
    }
    FullMemoryNeedsManyIds(t.client.closed, f.streamId, t.server.nextStreamId);
  }

  /** A connection that has opened at most 4096 streams never meets a protocol error. */
  lemma FewStreamsNeverFail(channels: nat, l: Limits, evs: seq<SysEvent>, t: Sys, ev: SysEvent)
    requires Reached(channels, l, evs, t) && CanStep(t, l, ev)
    requires t.server.nextStreamId <= MAX_REMEMBERED_CLOSED_STREAMS + 1
    ensures Next(t, l, ev).error == None
  {
    NoProtocolError(channels, l, evs, t, ev);
    if EvictedHead(t, ev) {
      EvictionNeedsManyStreams(channels, l, evs, t, Head(t.down, ev.c));
    }
  }

  // ----- the order of closes -----

  /** The stream that this step closes at the client, if any. */
  function ClosedBy(t: Sys, l: Limits, ev: SysEvent): seq<nat>
    requires CanStep(t, l, ev)
  {
    var i := About(t, ev);
    if i in t.client.streams && i !in Next(t, l, ev).sys.client.streams then [i] else []
  }

  /** The streams the client has closed in this run, in the order of their closes. */
  function CloseOrder(sys: Sys, l: Limits, evs: seq<SysEvent>): seq<nat> {
    if evs == [] then []
    else
      var n := |evs| - 1;
      CloseOrder(sys, l, evs[..n]) +
      match After(sys, l, evs[..n])
      case None => []
      case Some(t) => if CanStep(t, l, evs[n]) then ClosedBy(t, l, evs[n]) else []
  }

  /** order lists the closed streams, and the client remembers its newest part. */
  ghost predicate RemembersEnd(cl: Client, order: seq<nat>) {
    && NoDup(order)
    && (forall i :: i in order <==> i in cl.homes.Keys && i !in cl.streams.Keys)
    && cl.closed == order[|order| - Min(MAX_REMEMBERED_CLOSED_STREAMS, |order|)..]
    && cl.streams.Keys <= cl.homes.Keys
  }

  lemma CloseRemembers(cl: Client, cl': Client, i: nat, order: seq<nat>)
    requires RemembersEnd(cl, order) && Closes(cl, cl', i)
    ensures RemembersEnd(cl', order + [i])
  {
    assert i !in order;
    assert i !in cl.closed;
    RememberFresh(cl.closed, i);
  }

  lemma StartRemembers(cl: Client, cl': Client, i: nat, order: seq<nat>)
    requires RemembersEnd(cl, order) && Starts(cl, cl', i)
    ensures RemembersEnd(cl', order)
  {
    assert i !in order;
    assert i !in cl.closed;
    ForgetAbsent(cl.closed, i);
  }

  lemma IdStepRemembers(cl: Client, cl': Client, i: nat, order: seq<nat>)
    requires RemembersEnd(cl, order) && IdStep(cl, cl', i)
    ensures RemembersEnd(cl', order + if i in cl.streams && i !in cl'.streams then [i] else [])
  {
    assert order + [] == order;
    if Closes(cl, cl', i) && !SameIds(cl, cl') {
      CloseRemembers(cl, cl', i, order);
      assert i !in cl'.streams.Keys;
    } else if Starts(cl, cl', i) && !SameIds(cl, cl') {
      StartRemembers(cl, cl', i, order);
      assert i in cl'.streams.Keys;
    } else {
      assert i in cl.streams.Keys <==> i in cl'.streams.Keys;
    }
  }

  lemma {:induction false} ReachedRemembers(channels: nat, l: Limits, evs: seq<SysEvent>, t: Sys)
    requires Reached(channels, l, evs, t)
    ensures RemembersEnd(t.client, CloseOrder(InitSys(channels, l), l, evs))
    decreases |evs|
  {
    if evs != [] {
      var n := |evs| - 1;
      var s := After(InitSys(channels, l), l, evs[..n]).value;
      ReachedRemembers(channels, l, evs[..n], s);
      ReachedInv(channels, l, evs[..n], s);
      ReachedClosed(channels, l, evs[..n], s);
      NextIds(s, l, evs[n]);
      IdStepRemembers(s.client, t.client, About(s, evs[n]), CloseOrder(InitSys(channels, l), l, evs[..n]));
    }
  }

  /** At least 4096 closes came after that of i. */
  predicate ClosedLongAgo(order: seq<nat>, i: nat) {
    exists p :: 0 <= p < |order| && order[p] == i && |order| - 1 - p >= MAX_REMEMBERED_CLOSED_STREAMS
  }

  lemma EndOfOrder(cl: Client, order: seq<nat>, i: nat)
    requires RemembersEnd(cl, order)
    ensures i in cl.homes && i !in cl.streams && i !in cl.closed <==> ClosedLongAgo(order, i)
  {
    var kept := Min(MAX_REMEMBERED_CLOSED_STREAMS, |order|);
    if i in order {
      var p :| 0 <= p < |order| && order[p] == i;
      if p >= |order| - kept {
        assert cl.closed[p - (|order| - kept)] == i;
      }
    }
  }

  /** In every run, the client has forgotten a stream if and only if at least 4096 streams closed at the
      client after it. */
  lemma ForgottenExactly(channels: nat, l: Limits, evs: seq<SysEvent>, t: Sys, f: Frame)
    requires Reached(channels, l, evs, t) && !f.ChannelCredit? && !f.StreamCredit?
    ensures Evicted(t.client, f) <==> ClosedLongAgo(CloseOrder(InitSys(channels, l), l, evs), f.streamId)
  {
    ReachedRemembers(channels, l, evs, t);
    EndOfOrder(t.client, CloseOrder(InitSys(channels, l), l, evs), f.streamId);
  }
}
