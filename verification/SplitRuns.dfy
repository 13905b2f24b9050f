/** Whole runs of senders whose check, send and decrement are separate: what still holds, exactly when a
    decrement throws, and exactly when the peer gives up the connection. */
module SplitRuns {
  import opened Protocol
  import opened ServerTheorems
  import opened SplitSend

  /** t is reached on channel c of a fresh connection. */
  ghost predicate SplitReached(channels: nat, c: nat, l: Limits, evs: seq<SendEvent>, t: Split) {
    IsTunnelLimits(l) && c < channels && DoAll(Fresh(channels, c, l), l, evs) == Some(t)
  }

  lemma FreshInv(channels: nat, c: nat, l: Limits)
    requires IsTunnelLimits(l) && c < channels
    ensures SplitInv(Fresh(channels, c, l), l)
  {
    FullChannelsGet(channels, l.channelCreditBytes, c);
  }

  lemma ReachedInv(channels: nat, c: nat, l: Limits, evs: seq<SendEvent>, t: Split)
    requires SplitReached(channels, c, l, evs, t)
    ensures SplitInv(t, l)
  {
    FreshInv(channels, c, l);
    RunKeeps(Fresh(channels, c, l), l, evs, t);
  }

  /** Credit is conserved without atomic sends too, up to the bytes whose decrement threw and the credit cut
      off at the maximum; no credit is cut off while the window and those bytes fit below the maximum. */
  lemma SplitLedger(channels: nat, c: nat, l: Limits, evs: seq<SendEvent>, t: Split)
    requires SplitReached(channels, c, l, evs, t)
    ensures Out(t) + Sum(t.wire, None) + Sum(t.channelBack, None) + t.stale + t.capped == In(t) + t.overdrawn
    ensures In(t) + Sum(t.held, None) + t.lost == l.channelCreditBytes
    ensures l.channelCreditBytes + t.overdrawn <= MAX_CREDIT_BYTES && t.channelBack != [] ==>
              AddCredit(Out(t), t.channelBack[0].amount) == Out(t) + t.channelBack[0].amount
  {
    ReachedInv(channels, c, l, evs, t);
  }

  lemma CheckedCovered(s: Split, l: Limits, k: nat)
    requires SplitInv(s, l) && k < |s.checked| && s.checked[k].flow.stream in s.live
    ensures s.checked[k].amount <= StreamOut(s, s.checked[k].flow)
    ensures Charge(s, s.checked[k]).ok <==> s.checked[k].amount <= Out(s)
  {
    var f := s.checked[k].flow;
    assert FlowBooks(s, l, f);
    SumDrop(s.checked, k, Some(f));
  }

  /** However senders interleave, and whatever streams open and close meanwhile, a live stream's window still
      covers its checked chunk: the decrement succeeds if and only if the channel window covers it. */
  lemma StreamPartNeverThrows(channels: nat, c: nat, l: Limits, evs: seq<SendEvent>, t: Split, k: nat)
    requires SplitReached(channels, c, l, evs, t) && k < |t.checked| && t.checked[k].flow.stream in t.live
    ensures t.checked[k].amount <= StreamOut(t, t.checked[k].flow)
    ensures Charge(t, t.checked[k]).ok <==> t.checked[k].amount <= Out(t)
  {
    ReachedInv(channels, c, l, evs, t);
    CheckedCovered(t, l, k);
  }

  /** In every reached state, sending one checked chunk throws if and only if one of its two windows no longer
      covers it; the stream window fails only a stream that was closed since its check. */
  lemma CommitThrowsExactly(channels: nat, c: nat, l: Limits, evs: seq<SendEvent>, t: Split, k: nat)
    requires SplitReached(channels, c, l, evs, t) && Allowed(t, l, Commit(k))
    ensures var d := t.checked[k];
            && (Charge(t, d).ok <==> d.amount <= StreamOut(t, d.flow) && d.amount <= Out(t))
            && (d.amount > StreamOut(t, d.flow) ==> d.flow.stream in t.issued && d.flow.stream !in t.live)
            && Do(t, l, Commit(k)).overdrawn == t.overdrawn + if Charge(t, d).ok then 0 else d.amount
  {
    ReachedInv(channels, c, l, evs, t);
    if t.checked[k].flow.stream in t.live {
      CheckedCovered(t, l, k);
    }
  }

  lemma HeadCovered(s: Split, l: Limits)
    requires SplitInv(s, l) && s.wire != [] && s.wire[0].flow.stream in s.peerLive
    ensures Accept(s, s.wire[0]).ok <==> s.wire[0].amount <= In(s)
  {
    assert FlowBooks(s, l, s.wire[0].flow);
  }

  /** The peer refuses the next frame of a stream it knows if and only if the bytes whose decrement threw
      outweigh all that the sender's window, the rest of the wire and the returning credit leave. */
  lemma RefusedExactly(channels: nat, c: nat, l: Limits, evs: seq<SendEvent>, t: Split)
    requires SplitReached(channels, c, l, evs, t) && Allowed(t, l, Arrive) && t.wire[0].flow.stream in t.peerLive
    ensures Do(t, l, Arrive).violated <==>
            t.overdrawn > Out(t) + Sum(t.wire[1..], None) + Sum(t.channelBack, None) + t.stale + t.capped
  {
    ReachedInv(channels, c, l, evs, t);
    HeadCovered(t, l);
  }

  // ----- a discipline that suffices -----

  /** A check counts what is checked already, and a stream is not closed under a checked chunk. */
  predicate Careful(s: Split, ev: SendEvent) {
    match ev
    case Check(d) => Sum(s.checked, None) + d.amount <= Out(s)
    case Close(i) => forall k :: 0 <= k < |s.checked| ==> s.checked[k].flow.stream != i
    case _ => true
  }

  predicate CarefulRun(s: Split, l: Limits, evs: seq<SendEvent>)
    decreases |evs|
  {
    evs != [] && Allowed(s, l, evs[0]) ==> Careful(s, evs[0]) && CarefulRun(Do(s, l, evs[0]), l, evs[1..])
  }

  ghost predicate Reserved(s: Split) {
    && Sum(s.checked, None) <= Out(s) && s.overdrawn == 0 && s.capped == 0 && !s.violated
    && forall k :: 0 <= k < |s.checked| ==> s.checked[k].flow.stream in s.live
  }

  lemma CommitReserved(s: Split, l: Limits, k: nat)
    requires SplitInv(s, l) && Reserved(s) && k < |s.checked|
    ensures Reserved(Post(s, k))
  {
    SumDrop(s.checked, k, None);
    CheckedCovered(s, l, k);
    forall j | 0 <= j < |Drop(s.checked, k)| ensures Drop(s.checked, k)[j].flow.stream in s.live {
      assert Drop(s.checked, k)[j] == s.checked[if j < k then j else j + 1];
    }
  }

  lemma CarefulReserved(s: Split, l: Limits, ev: SendEvent)
    requires SplitInv(s, l) && Reserved(s) && Allowed(s, l, ev) && Careful(s, ev)
    ensures Reserved(Do(s, l, ev))
  {
    match ev
    case Check(d) => SumSnoc(s.checked, d, None);
    case Commit(k) => CommitReserved(s, l, k);
    case Arrive =>
      if s.wire[0].flow.stream in s.peerLive {
        HeadCovered(s, l);
      }
    case Open(_) =>
    case Close(_) =>
    case PeerOpen(_) =>
    case PeerClose(_) =>
    case Return(_) =>
    case Discard(_) =>
    case StreamCreditArrives =>
    case ChannelCreditArrives =>
  }

  lemma {:induction false} CarefulKeeps(s: Split, l: Limits, evs: seq<SendEvent>, t: Split)
    requires SplitInv(s, l) && Reserved(s) && DoAll(s, l, evs) == Some(t) && CarefulRun(s, l, evs)
    ensures Reserved(t)
    decreases |evs|
  {
    if evs != [] {
      CarefulReserved(s, l, evs[0]);
      DoBooks(s, l, evs[0]);
      DoFlows(s, l, evs[0]);
      CarefulKeeps(Do(s, l, evs[0]), l, evs[1..], t);
    }
  }

  /** If no check overbooks the window and no stream closes under a checked chunk, no decrement throws, no credit is cut off, and the peer never meets
      a credit violation. */
  lemma CarefulRunsAreSafe(channels: nat, c: nat, l: Limits, evs: seq<SendEvent>, t: Split)
    requires SplitReached(channels, c, l, evs, t) && CarefulRun(Fresh(channels, c, l), l, evs)
    ensures t.overdrawn == 0 && t.capped == 0 && !t.violated && Sum(t.checked, None) <= Out(t)
  {
    FreshInv(channels, c, l);
    CarefulKeeps(Fresh(channels, c, l), l, evs, t);
  }

  // ----- and is needed -----

  /** n times the same event. */
  function Times(ev: SendEvent, n: nat): seq<SendEvent> {
    seq(n, _ => ev)
  }

  lemma {:induction false} DoAllConcat(s: Split, l: Limits, a: seq<SendEvent>, b: seq<SendEvent>)
    requires DoAll(s, l, a).Some?
    ensures DoAll(s, l, a + b) == DoAll(DoAll(s, l, a).value, l, b)
    decreases |a|
  {
    if a == [] {
      assert a + b == b;
    } else {
      assert (a + b)[1..] == a[1..] + b;
      DoAllConcat(Do(s, l, a[0]), l, a[1..], b);
    }
  }

  lemma DoFirst(s: Split, l: Limits, ev: SendEvent, n: nat)
    requires Allowed(s, l, ev) && n > 0
    ensures DoAll(s, l, Times(ev, n)) == DoAll(Do(s, l, ev), l, Times(ev, n - 1))
  {
    assert Times(ev, n)[1..] == Times(ev, n - 1);
  }

  /** Every checked chunk still finds its stream's window. */
  ghost predicate AllCovered(s: Split) {
    forall k :: 0 <= k < |s.checked| ==> s.checked[k].amount <= StreamOut(s, s.checked[k].flow)
  }

  /** Everything but the sender's windows and the count of overdrawn bytes is as said. */
  ghost predicate Committed(s: Split, t: Split) {
    t == s.(wire := s.wire + s.checked, checked := [], credit := t.credit, overdrawn := t.overdrawn)
  }

  lemma ChargeHead(s: Split)
    requires s.checked != []
    ensures var u, d := Post(s, 0), s.checked[0];
            if d.amount <= StreamOut(s, d.flow) && d.amount <= Out(s) then Out(u) == Out(s) - d.amount && u.overdrawn == s.overdrawn
            else u.overdrawn > s.overdrawn
  {
  }

  lemma CommitHead(s: Split, l: Limits)
    requires SplitInv(s, l) && s.checked != [] && !s.violated
    ensures var u, d := Post(s, 0), s.checked[0];
            && SplitInv(u, l) && u.checked == s.checked[1..] && u.wire == s.wire + [d]
            && (d.amount <= StreamOut(s, d.flow) ==> (AllCovered(u) <==> AllCovered(s)))
  {
    var u := Post(s, 0);
    DoBooks(s, l, Commit(0));
    DoFlows(s, l, Commit(0));
    assert Drop(s.checked, 0) == s.checked[1..];
    assert forall k :: 0 <= k < |u.checked| ==> u.checked[k] == s.checked[k + 1];
    forall k | 0 < k < |s.checked| ensures StreamOut(u, s.checked[k].flow) == StreamOut(s, s.checked[k].flow) {
      Charging(s, s.checked[0], s.checked[k].flow);
    }
    assert forall k :: 0 < k < |s.checked| ==> u.checked[k - 1] == s.checked[k];
  }

  lemma CommittedFirst(s: Split, t: Split)
    requires s.checked != [] && Drop(s.checked, 0) == s.checked[1..] && Committed(Post(s, 0), t)
    ensures Committed(s, t)
  {
    assert (s.wire + [s.checked[0]]) + s.checked[1..] == s.wire + s.checked;
  }

  /** Some chunk has lost its stream's window, or all of them together exceed the channel window. */
  ghost predicate Overbooked(s: Split) {
    !AllCovered(s) || Sum(s.checked, None) > Out(s)
  }

  lemma OverbookedHead(s: Split, l: Limits)
    requires SplitInv(s, l) && s.checked != [] && !s.violated
    ensures var u := Post(s, 0);
            && u.overdrawn >= s.overdrawn
            && (if u.overdrawn > s.overdrawn then Overbooked(s) else (Overbooked(u) <==> Overbooked(s)))
  {
    var d := s.checked[0];
    CommitHead(s, l);
    ChargeHead(s);
    assert Sum(s.checked, None) == d.amount + Sum(s.checked[1..], None);
  }

  /** Sending all that is checked throws if and only if it is overbooked. */
  lemma {:induction false} CommitsThrowExactly(s: Split, l: Limits) returns (t: Split)
    requires SplitInv(s, l) && !s.violated
    ensures DoAll(s, l, Times(Commit(0), |s.checked|)) == Some(t) && Committed(s, t) && SplitInv(t, l)
    ensures t.overdrawn >= s.overdrawn && (t.overdrawn > s.overdrawn <==> Overbooked(s))
    decreases |s.checked|
  {
    if s.checked == [] {
      t := s;
      assert s.wire + [] == s.wire;
    } else {
      CommitHead(s, l);
      OverbookedHead(s, l);
      t := CommitsThrowExactly(Post(s, 0), l);
      CommittedFirst(s, t);
      DoFirst(s, l, Commit(0), |s.checked|);
    }
  }

  /** The bytes of streams that are live at the peer; it ignores the others. */
  function LiveSum(ds: seq<Datum>, live: set<nat>): nat {
    if ds == [] then 0 else LiveSum(ds[1..], live) + if ds[0].flow.stream in live then ds[0].amount else 0
  }

  lemma {:induction false} LiveSumAppend(a: seq<Datum>, b: seq<Datum>, live: set<nat>)
    ensures LiveSum(a + b, live) == LiveSum(a, live) + LiveSum(b, live)
  {
    if a == [] {
      assert a + b == b;
    } else {
      assert (a + b)[1..] == a[1..] + b;
      LiveSumAppend(a[1..], b, live);
    }
  }

  lemma {:induction false} LiveSumAll(ds: seq<Datum>, live: set<nat>)
    requires forall k :: 0 <= k < |ds| ==> ds[k].flow.stream in live
    ensures LiveSum(ds, live) == Sum(ds, None)
  {
    if ds != [] {
      LiveSumAll(ds[1..], live);
    }
  }

  /** The peer has seen the start of every stream of ds, whether or not it has closed it since. */
  ghost predicate Started(s: Split, ds: seq<Datum>) {
    forall k :: 0 <= k < |ds| ==> ds[k].flow.stream in s.peerIssued
  }

  lemma TakeHead(s: Split, l: Limits)
    requires SplitInv(s, l) && s.wire != [] && Started(s, s.wire) && !s.violated
    ensures Allowed(s, l, Arrive)
    ensures var u, d := Take(s), s.wire[0]; var n := if d.flow.stream in s.peerLive then d.amount else 0;
            && (u.violated <==> n > In(s))
            && (!u.violated ==>
                  SplitInv(u, l) && Started(u, u.wire) && u.wire == s.wire[1..] && u.peerLive == s.peerLive && In(u) == In(s) - n)
  {
    DoBooks(s, l, Arrive);
    DoFlows(s, l, Arrive);
    if s.wire[0].flow.stream in s.peerLive {
      HeadCovered(s, l);
      if Accept(s, s.wire[0]).ok {
        Accepted(s, s.wire[0]);
      }
    }
  }

  /** Letting everything on the wire arrive ends in a credit violation if and only if what belongs to streams
      live at the peer exceeds its channel window. */
  lemma {:induction false} ArrivalsViolateExactly(s: Split, l: Limits) returns (n: nat, t: Split)
    requires SplitInv(s, l) && Started(s, s.wire) && !s.violated
    ensures n <= |s.wire| && DoAll(s, l, Times(Arrive, n)) == Some(t) && (t.violated || t.wire == [])
    ensures t.violated <==> LiveSum(s.wire, s.peerLive) > In(s)
    decreases |s.wire|
  {
    if s.wire == [] {
      n, t := 0, s;
    } else {
      TakeHead(s, l);
      if Take(s).violated {
        n, t := 1, Take(s);
        DoFirst(s, l, Arrive, 1);
      } else {
        n, t := ArrivalsViolateExactly(Take(s), l);
        n := n + 1;
        DoFirst(s, l, Arrive, n);
      }
    }
  }

  lemma DrainState(s: Split, l: Limits) returns (more: seq<SendEvent>, t: Split)
    requires SplitInv(s, l) && !s.violated && Started(s, s.wire) && Started(s, s.checked)
    ensures DoAll(s, l, more) == Some(t) && forall e :: e in more ==> e == Commit(0) || e == Arrive
    ensures t.violated || t.wire == t.checked == []
    ensures t.violated <==> LiveSum(s.wire, s.peerLive) + LiveSum(s.checked, s.peerLive) > In(s)
  {
    var u := CommitsThrowExactly(s, l);
    LiveSumAppend(s.wire, s.checked, s.peerLive);
    assert Started(u, u.wire);
    var n;
    n, t := ArrivalsViolateExactly(u, l);
    more := Times(Commit(0), |s.checked|) + Times(Arrive, n);
    DoAllConcat(s, l, Times(Commit(0), |s.checked|), Times(Arrive, n));
    StillDrained(u, l, n, t);
  }

  /** From any reached state, streams open or closed at either end: if all that is checked is sent and all that
      is sent arrives, the connection ends in a credit violation if and only if the wire and the checked chunks
      of streams live at the peer exceed its window. By the ledger that is so if and only if they and the
      overdrawn bytes exceed the sender's window, the whole wire and the returning, stale and capped credit. */
  lemma DrainViolatesExactly(channels: nat, c: nat, l: Limits, evs: seq<SendEvent>, s: Split) returns (more: seq<SendEvent>, t: Split)
    requires SplitReached(channels, c, l, evs, s) && !s.violated && Started(s, s.wire) && Started(s, s.checked)
    ensures SplitReached(channels, c, l, evs + more, t) && forall e :: e in more ==> e == Commit(0) || e == Arrive
    ensures t.violated || t.wire == t.checked == []
    ensures t.violated <==> LiveSum(s.wire, s.peerLive) + LiveSum(s.checked, s.peerLive) > In(s)
    ensures t.violated <==>
            LiveSum(s.wire, s.peerLive) + LiveSum(s.checked, s.peerLive) + s.overdrawn
            > Out(s) + Sum(s.wire, None) + Sum(s.channelBack, None) + s.stale + s.capped
  {
    ReachedInv(channels, c, l, evs, s);
    more, t := DrainState(s, l);
    DoAllConcat(Fresh(channels, c, l), l, evs, more);
  }

  lemma {:induction false} StillDrained(u: Split, l: Limits, n: nat, t: Split)
    requires u.checked == [] && DoAll(u, l, Times(Arrive, n)) == Some(t)
    ensures t.checked == []
    decreases n
  {
    if n > 0 {
      DoFirst(u, l, Arrive, n);
      StillDrained(Do(u, l, Arrive), l, n - 1, t);
    }
  }

  // ----- for all limits -----

  /** A chunk that every window and every frame can hold. */
  function ChunkSize(l: Limits): nat {
    Min(Min(l.streamCreditBytes, l.channelCreditBytes), l.maxFrameBytes)
  }

  /** More streams than the channel window has room for such chunks. */
  function Crowd(l: Limits): nat
    requires IsTunnelLimits(l)
  {
    l.channelCreditBytes / ChunkSize(l) + 1
  }

  function Nth(l: Limits, kind: DataKind, i: nat): Datum {
    Datum(Flow(i, kind), ChunkSize(l))
  }

  /** The chunks of streams 1 to j. */
  function Nths(l: Limits, kind: DataKind, j: nat): (r: seq<Datum>)
    ensures |r| == j && forall k :: 0 <= k < j ==> r[k] == Nth(l, kind, k + 1)
  {
    if j == 0 then [] else Nths(l, kind, j - 1) + [Nth(l, kind, j)]
  }

  /** Streams 1 to j open at both ends, and the sender of each passes its check. */
  function AllCheck(l: Limits, kind: DataKind, j: nat): seq<SendEvent> {
    if j == 0 then []
    else AllCheck(l, kind, j - 1) + [Open(j), PeerOpen(j), Check(Nth(l, kind, j))]
  }

  ghost predicate AllChecked(t: Split, l: Limits, kind: DataKind, j: nat) {
    && (forall i :: (i in t.issued <==> 1 <= i <= j) && (i in t.live <==> 1 <= i <= j))
    && (forall i :: (i in t.peerIssued <==> 1 <= i <= j) && (i in t.peerLive <==> 1 <= i <= j))
    && t.checked == Nths(l, kind, j) && t.wire == t.channelBack == []
    && Out(t) == In(t) == l.channelCreditBytes && t.overdrawn == t.stale == t.capped == 0 && !t.violated
  }

  lemma OneMoreChecked(s: Split, l: Limits, kind: DataKind, j: nat)
    requires AllChecked(s, l, kind, j) && IsTunnelLimits(l)
    ensures Allowed(s, l, Open(j + 1))
    ensures Allowed(Do(s, l, Open(j + 1)), l, PeerOpen(j + 1))
    ensures var u := Do(Do(s, l, Open(j + 1)), l, PeerOpen(j + 1)); var e := Check(Nth(l, kind, j + 1));
            Allowed(u, l, e) && AllChecked(Do(u, l, e), l, kind, j + 1)
  {
    var f := Flow(j + 1, kind);
    Seeding(s.credit, j + 1, l, f);
    assert forall k :: 0 <= k < j ==> s.checked[k].flow.stream == k + 1;
  }

  lemma CheckRound(s: Split, l: Limits, kind: DataKind, j: nat) returns (t: Split)
    requires AllChecked(s, l, kind, j) && IsTunnelLimits(l)
    ensures DoAll(s, l, [Open(j + 1), PeerOpen(j + 1), Check(Nth(l, kind, j + 1))]) == Some(t)
    ensures AllChecked(t, l, kind, j + 1)
  {
    OneMoreChecked(s, l, kind, j);
    var a, b, e := Open(j + 1), PeerOpen(j + 1), Check(Nth(l, kind, j + 1));
    t := Do(Do(Do(s, l, a), l, b), l, e);
    Three(s, l, a, b, e);
  }

  lemma {:induction false} AllCheckReaches(channels: nat, c: nat, l: Limits, kind: DataKind, j: nat) returns (t: Split)
    requires IsTunnelLimits(l) && c < channels
    ensures DoAll(Fresh(channels, c, l), l, AllCheck(l, kind, j)) == Some(t) && AllChecked(t, l, kind, j)
  {
    if j == 0 {
      t := Fresh(channels, c, l);
      FullChannelsGet(channels, l.channelCreditBytes, c);
    } else {
      var s := AllCheckReaches(channels, c, l, kind, j - 1);
      t := CheckRound(s, l, kind, j - 1);
      DoAllConcat(Fresh(channels, c, l), l, AllCheck(l, kind, j - 1), [Open(j), PeerOpen(j), Check(Nth(l, kind, j))]);
    }
  }

  lemma Three(s: Split, l: Limits, a: SendEvent, b: SendEvent, e: SendEvent)
    requires Allowed(s, l, a) && Allowed(Do(s, l, a), l, b) && Allowed(Do(Do(s, l, a), l, b), l, e)
    ensures DoAll(s, l, [a, b, e]) == Some(Do(Do(Do(s, l, a), l, b), l, e))
  {
    var u := Do(s, l, a);
    assert [a, b, e][1..] == [b, e] && [b, e][1..] == [e] && [e][1..] == [];
    assert DoAll(Do(u, l, b), l, [e]) == Some(Do(Do(u, l, b), l, e));
    assert DoAll(u, l, [b, e]) == DoAll(Do(u, l, b), l, [e]);
  }

  lemma {:induction false} SameSize(ds: seq<Datum>, n: nat)
    requires forall k :: 0 <= k < |ds| ==> ds[k].amount == n
    ensures Sum(ds, None) == |ds| * n
  {
    if ds != [] {
      SameSize(ds[1..], n);
      assert |ds| * n == (|ds| - 1) * n + n;
    }
  }

  lemma CrowdOverbooks(l: Limits)
    requires IsTunnelLimits(l)
    ensures Crowd(l) * ChunkSize(l) > l.channelCreditBytes && Crowd(l) >= 2
  {
    var w, n := l.channelCreditBytes, ChunkSize(l);
    assert w == (w / n) * n + w % n;
    assert (w / n + 1) * n == (w / n) * n + n;
    if w / n == 0 {
      assert false;
    }
  }

  lemma CrowdChecked(channels: nat, c: nat, l: Limits, kind: DataKind) returns (s: Split)
    requires IsTunnelLimits(l) && c < channels
    ensures SplitReached(channels, c, l, AllCheck(l, kind, Crowd(l)), s) && AllChecked(s, l, kind, Crowd(l)) && SplitInv(s, l)
    ensures Sum(s.checked, None) > l.channelCreditBytes && Crowd(l) >= 2
  {
    s := AllCheckReaches(channels, c, l, kind, Crowd(l));
    SameSize(s.checked, ChunkSize(l));
    CrowdOverbooks(l);
    ReachedInv(channels, c, l, AllCheck(l, kind, Crowd(l)), s);
  }

  /** For all valid limits, on any channel, from a fresh connection: enough streams open and pass their
      checks, all send, and a decrement throws although every frame is out. */
  lemma ChannelPartCanThrow(channels: nat, c: nat, l: Limits, kind: DataKind) returns (evs: seq<SendEvent>, t: Split)
    requires IsTunnelLimits(l) && c < channels
    ensures evs == AllCheck(l, kind, Crowd(l)) + Times(Commit(0), Crowd(l))
    ensures SplitReached(channels, c, l, evs, t) && t.overdrawn > 0 && t.checked == []
    ensures t.wire == Nths(l, kind, Crowd(l)) && Crowd(l) >= 2
  {
    var s := CrowdChecked(channels, c, l, kind);
    t := CommitsThrowExactly(s, l);
    evs := AllCheck(l, kind, Crowd(l)) + Times(Commit(0), Crowd(l));
    DoAllConcat(Fresh(channels, c, l), l, AllCheck(l, kind, Crowd(l)), Times(Commit(0), Crowd(l)));
    assert [] + s.checked == s.checked;
  }

  /** The same run, continued until the frames arrive: the peer closes the connection for a credit violation. */
  lemma OverdraftEndsInViolation(channels: nat, c: nat, l: Limits, kind: DataKind) returns (more: seq<SendEvent>, t: Split)
    requires IsTunnelLimits(l) && c < channels
    ensures SplitReached(channels, c, l, AllCheck(l, kind, Crowd(l)) + more, t) && t.violated
    ensures forall e :: e in more ==> e == Commit(0) || e == Arrive
  {
    var evs := AllCheck(l, kind, Crowd(l));
    var s := CrowdChecked(channels, c, l, kind);
    assert forall k :: 0 <= k < |s.checked| ==> s.checked[k].flow.stream == k + 1;
    LiveSumAll(s.checked, s.peerLive);
    more, t := DrainViolatesExactly(channels, c, l, evs, s);
  }

  // ----- streams that close between check and send -----

  /** One sender at a time: streams 1 to j open, pass their check, close at the sender, and send all the same. */
  function AllClose(l: Limits, kind: DataKind, n: nat, j: nat): seq<SendEvent> {
    if j == 0 then []
    else AllClose(l, kind, n, j - 1) + CloseRound(kind, n, j)
  }

  function CloseRound(kind: DataKind, n: nat, j: nat): seq<SendEvent> {
    [Open(j), PeerOpen(j), Check(Datum(Flow(j, kind), n)), Close(j), Commit(0)]
  }

  ghost predicate AllClosed(t: Split, l: Limits, n: nat, j: nat) {
    && (forall i :: i in t.issued <==> 1 <= i <= j) && t.live == {}
    && (forall i :: (i in t.peerIssued <==> 1 <= i <= j) && (i in t.peerLive <==> 1 <= i <= j))
    && t.checked == [] && |t.wire| == j
    && (forall k :: 0 <= k < j ==> t.wire[k].amount == n && t.wire[k].flow.stream == k + 1)
    && Out(t) == In(t) == l.channelCreditBytes && t.overdrawn == j * n && !t.violated
  }

  lemma CloseUnder(u: Split, l: Limits, d: Datum)
    requires u.checked == [d] && d.flow.stream in u.live && !u.violated && d.amount > 0
    ensures Allowed(u, l, Close(d.flow.stream)) && Allowed(Do(u, l, Close(d.flow.stream)), l, Commit(0))
    ensures var t := Do(Do(u, l, Close(d.flow.stream)), l, Commit(0));
            t == u.(live := u.live - {d.flow.stream}, credit := t.credit, checked := [], wire := u.wire + [d], overdrawn := u.overdrawn + d.amount)
            && Out(t) == Out(u)
  {
    Deleting(u.credit, d.flow.stream, d.flow);
    assert Drop([d], 0) == [];
  }

  lemma CheckAlone(s: Split, l: Limits, kind: DataKind, n: nat, j: nat)
    requires AllClosed(s, l, n, j) && IsTunnelLimits(l) && 0 < n <= ChunkSize(l)
    ensures var i, d := j + 1, Datum(Flow(j + 1, kind), n);
            && Allowed(s, l, Open(i)) && Allowed(Do(s, l, Open(i)), l, PeerOpen(i))
            && Allowed(Do(Do(s, l, Open(i)), l, PeerOpen(i)), l, Check(d))
            && var u := Do(Do(Do(s, l, Open(i)), l, PeerOpen(i)), l, Check(d));
               && u.checked == [d] && u.live == {i} && !u.violated && Out(u) == Out(s)
               && u == s.(credit := u.credit, peer := u.peer, issued := s.issued + {i}, live := u.live,
                          peerIssued := s.peerIssued + {i}, peerLive := s.peerLive + {i}, checked := u.checked)
               && In(u) == In(s)
  {
    Seeding(s.credit, j + 1, l, Flow(j + 1, kind));
    assert [] + [Datum(Flow(j + 1, kind), n)] == [Datum(Flow(j + 1, kind), n)];
  }

  lemma OneMoreClosed(s: Split, u: Split, t: Split, l: Limits, kind: DataKind, n: nat, j: nat)
    requires AllClosed(s, l, n, j) && !u.violated && Out(t) == Out(s) && In(u) == In(s)
    requires u == s.(credit := u.credit, peer := u.peer, issued := s.issued + {j + 1}, live := {j + 1},
                     peerIssued := s.peerIssued + {j + 1}, peerLive := s.peerLive + {j + 1}, checked := u.checked)
    requires t == u.(live := u.live - {j + 1}, credit := t.credit, checked := [], wire := u.wire + [Datum(Flow(j + 1, kind), n)],
                     overdrawn := u.overdrawn + n)
    ensures AllClosed(t, l, n, j + 1)
  {
    assert (j + 1) * n == j * n + n;
    assert t.live == {};
  }

  lemma OneCloseRound(s: Split, l: Limits, kind: DataKind, n: nat, j: nat) returns (t: Split)
    requires AllClosed(s, l, n, j) && IsTunnelLimits(l) && 0 < n <= ChunkSize(l)
    ensures DoAll(s, l, CloseRound(kind, n, j + 1)) == Some(t) && AllClosed(t, l, n, j + 1)
  {
    var i, d := j + 1, Datum(Flow(j + 1, kind), n);
    CheckAlone(s, l, kind, n, j);
    var u := Do(Do(Do(s, l, Open(i)), l, PeerOpen(i)), l, Check(d));
    CloseUnder(u, l, d);
    t := Do(Do(u, l, Close(i)), l, Commit(0));
    OneMoreClosed(s, u, t, l, kind, n, j);
    Five(s, l, Open(i), PeerOpen(i), Check(d), u, Close(i), Commit(0));
  }

  lemma Five(s: Split, l: Limits, a: SendEvent, b: SendEvent, e: SendEvent, u: Split, f: SendEvent, g: SendEvent)
    requires Allowed(s, l, a) && Allowed(Do(s, l, a), l, b) && Allowed(Do(Do(s, l, a), l, b), l, e)
    requires u == Do(Do(Do(s, l, a), l, b), l, e) && Allowed(u, l, f) && Allowed(Do(u, l, f), l, g)
    ensures DoAll(s, l, [a, b, e, f, g]) == Some(Do(Do(u, l, f), l, g))
  {
    Three(s, l, a, b, e);
    Two(u, l, f, g);
    DoAllConcat(s, l, [a, b, e], [f, g]);
    assert [a, b, e] + [f, g] == [a, b, e, f, g];
  }

  lemma Two(s: Split, l: Limits, a: SendEvent, b: SendEvent)
    requires Allowed(s, l, a) && Allowed(Do(s, l, a), l, b)
    ensures DoAll(s, l, [a, b]) == Some(Do(Do(s, l, a), l, b))
  {
    assert [a, b][1..] == [b] && [b][1..] == [];
    assert DoAll(Do(s, l, a), l, [b]) == Some(Do(Do(s, l, a), l, b));
  }

  /** For all valid limits, on any channel, from a fresh connection: a stream that closes between check and send
      sends all the same, and every such decrement throws although the chunk fits the channel window. */
  lemma {:induction false} ClosedSendersOverdraw(channels: nat, c: nat, l: Limits, kind: DataKind, n: nat, j: nat) returns (t: Split)
    requires IsTunnelLimits(l) && c < channels && 0 < n <= ChunkSize(l)
    ensures SplitReached(channels, c, l, AllClose(l, kind, n, j), t) && AllClosed(t, l, n, j)
  {
    if j == 0 {
      t := Fresh(channels, c, l);
      FullChannelsGet(channels, l.channelCreditBytes, c);
    } else {
      var s := ClosedSendersOverdraw(channels, c, l, kind, n, j - 1);
      t := OneCloseRound(s, l, kind, n, j - 1);
      DoAllConcat(Fresh(channels, c, l), l, AllClose(l, kind, n, j - 1), CloseRound(kind, n, j));
    }
  }

  /** Enough of them, one after the other, end in a credit violation at the peer, although no check ever
      overbooks the channel window. */
  lemma ClosedSendersEndInViolation(channels: nat, c: nat, l: Limits, kind: DataKind) returns (more: seq<SendEvent>, t: Split)
    requires IsTunnelLimits(l) && c < channels
    ensures SplitReached(channels, c, l, AllClose(l, kind, ChunkSize(l), Crowd(l)) + more, t) && t.violated
    ensures forall e :: e in more ==> e == Commit(0) || e == Arrive
  {
    var n, j := ChunkSize(l), Crowd(l);
    var s := ClosedSendersOverdraw(channels, c, l, kind, n, j);
    SameSize(s.wire, n);
    LiveSumAll(s.wire, s.peerLive);
    CrowdOverbooks(l);
    more, t := DrainViolatesExactly(channels, c, l, AllClose(l, kind, n, j), s);
  }
}
