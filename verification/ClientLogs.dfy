/** The client's state in terms of the frames it has received (D, per channel) and sent (U). */
module ClientLogs {
  import opened Protocol
  import opened CreditSpec
  import opened Frames
  import opened ServerSpec
  import opened ServerLogs
  import opened ClientSpec

  /** Everything the client knows about stream i. held is what its request writer has not taken yet. */
  datatype CPart = CPart(
    stream: Option<ClientStream>,
    home: Option<nat>,
    held: bytes,
    written: bytes,
    writerClosed: bool,
    read: bytes,
    outCredit: nat,
    inCredit: nat)

  function HeldBytes(cl: Client, i: nat): bytes {
    if i in cl.homes && cl.homes[i] in cl.busy && cl.busy[cl.homes[i]].stream == i then cl.busy[cl.homes[i]].payload else []
  }

  function CPartOf(cl: Client, i: nat): CPart {
    CPart(if i in cl.streams then Some(cl.streams[i]) else None,
          if i in cl.homes then Some(cl.homes[i]) else None,
          HeldBytes(cl, i),
          GetBytes(cl.written, i),
          i in cl.closedWriters,
          GetBytes(cl.read, i),
          Get(cl.credit.outStream, Key(i, ResponseBody)),
          Get(cl.credit.inStream, Key(i, RequestBody)))
  }

  datatype CLane = CLane(outCredit: nat, inCredit: nat, stale: nat, lost: nat, held: nat)

  function CLaneOf(cl: Client, c: nat): CLane {
    CLane(Get(cl.credit.outChannel, c), Get(cl.credit.inChannel, c), Get(cl.stale, c), Get(cl.lost, c),
          if c in cl.busy then |cl.busy[c].payload| else 0)
  }

  function CRest(st: ClientStream): bytes {
    if st.rest.None? then [] else st.rest.value
  }

  ghost predicate CLiveLog(st: ClientStream, p: CPart, l: Limits, recvd: seq<Frame>, sent: seq<Frame>) {
    && p.home == Some(st.channel)
    && !Aborted(recvd) && !Ended(sent) && !Aborted(sent)
    && st.recvNext == Count(recvd)
    && st.sendNext == Count(sent)
    && st.responding == Responded(sent)
    && p.written + p.held == Payload(recvd)
    && p.read == Payload(sent) + CRest(st)
    && p.outCredit + |Payload(sent)| == l.streamCreditBytes + StreamGrants(recvd)
    && p.inCredit + |Payload(recvd)| == l.streamCreditBytes + StreamGrants(sent)
    && p.inCredit + |p.held| == l.streamCreditBytes
    && (p.writerClosed <==> st.hasBody && Ended(recvd))
  }

  /** Facts that outlive the stream. */
  ghost predicate CFlowLog(p: CPart, l: Limits, recvd: seq<Frame>, sent: seq<Frame>) {
    && recvd != [] && WellUp(sent)
    && |Payload(sent)| <= l.streamCreditBytes + StreamGrants(recvd)
    && StreamGrants(sent) + |p.held| <= |Payload(recvd)|
    && p.written + p.held <= Payload(recvd)
    && (p.writerClosed ==> Ended(recvd) && p.held == [] && p.written == Payload(recvd))
    && Payload(sent) <= p.read
    && (Ended(sent) ==> p.read == Payload(sent))
  }

  ghost predicate CPartLog(p: CPart, l: Limits, recvd: seq<Frame>, sent: seq<Frame>) {
    if p.home.None? then
      p.stream.None? && p.held == [] && p.written == [] && !p.writerClosed && p.read == []
    else
      && CFlowLog(p, l, recvd, sent)
      && (p.stream.Some? ==> CLiveLog(p.stream.value, p, l, recvd, sent))
      && (p.stream.None? ==> Ended(sent) || Aborted(sent) || Aborted(recvd))
  }

  ghost predicate CLaneLog(a: CLane, l: Limits, recvd: seq<Frame>, sent: seq<Frame>) {
    && a.outCredit + |Payload(sent)| == l.channelCreditBytes + ChannelGrants(recvd)
    && a.inCredit + |Payload(recvd)| == l.channelCreditBytes + a.stale + ChannelGrants(sent)
    && a.inCredit + a.held + a.lost == l.channelCreditBytes
  }

  ghost predicate CHomeLog(fs: seq<Frame>, homes: map<nat, nat>, c: nat) {
    forall k :: 0 <= k < |fs| && !fs[k].ChannelCredit? ==> fs[k].streamId in homes && homes[fs[k].streamId] == c
  }

  ghost predicate CStreamsLog(cl: Client, l: Limits, D: Logs, U: Logs)
    requires |D| == |U|
  {
    && (forall i :: i in cl.homes ==>
         cl.homes[i] < |D| && CPartLog(CPartOf(cl, i), l, Proj(D[cl.homes[i]], i), Proj(U[cl.homes[i]], i)))
    && (forall i :: i !in cl.homes ==> CPartLog(CPartOf(cl, i), l, [], []))
  }

  ghost predicate CLanesLog(cl: Client, l: Limits, D: Logs, U: Logs)
    requires |D| == |U|
  {
    forall c :: 0 <= c < |D| ==> CLaneLog(CLaneOf(cl, c), l, D[c], U[c])
  }

  ghost predicate CHomesLog(cl: Client, D: Logs, U: Logs)
    requires |D| == |U|
  {
    forall c :: 0 <= c < |D| ==> CHomeLog(D[c], cl.homes, c) && CHomeLog(U[c], cl.homes, c)
  }

  ghost predicate CIds(cl: Client) {
    && (forall i :: i in cl.closed ==> i in cl.homes && i !in cl.streams)
    && (forall c :: c in cl.busy ==> cl.busy[c].stream in cl.homes && cl.homes[cl.busy[c].stream] == c)
  }

  ghost predicate ClientInv(cl: Client, l: Limits, D: Logs, U: Logs) {
    && IsTunnelLimits(l) && |D| == |U|
    && CIds(cl) && CStreamsLog(cl, l, D, U) && CLanesLog(cl, l, D, U) && CHomesLog(cl, D, U)
  }

  /** cl' differs from cl only in stream i and channel c. */
  ghost predicate CMoves(cl: Client, cl': Client, i: nat, c: nat) {
    && (forall j :: j != i ==> CPartOf(cl', j) == CPartOf(cl, j))
    && (forall d :: d != c ==> CLaneOf(cl', d) == CLaneOf(cl, d))
  }

  /** A step of stream i on channel c, its home afterwards, that receives ins and sends out. */
  ghost predicate CLogStep(cl: Client, cl': Client, l: Limits, D: Logs, U: Logs, i: nat, c: nat, ins: seq<Frame>, out: seq<Frame>) {
    && CMoves(cl, cl', i, c) && OnlyOf(out, i) && OnlyOf(ins, i)
    && |D| == |U| && c < |D|
    && i in cl'.homes && cl'.homes[i] == c && (i in cl.homes ==> cl.homes[i] == c)
    && CPartLog(CPartOf(cl', i), l, Proj(D[c] + ins, i), Proj(U[c] + out, i))
    && CLaneLog(CLaneOf(cl', c), l, D[c] + ins, U[c] + out)
    && CIds(cl')
  }

  lemma CSameHomes(cl: Client, cl': Client, i: nat, c: nat)
    requires CMoves(cl, cl', i, c)
    ensures forall j :: j != i ==> (j in cl'.homes <==> j in cl.homes) && (j in cl.homes ==> cl'.homes[j] == cl.homes[j])
  {
    forall j | j != i ensures (j in cl'.homes <==> j in cl.homes) && (j in cl.homes ==> cl'.homes[j] == cl.homes[j]) {
      assert CPartOf(cl', j).home == CPartOf(cl, j).home;
    }
  }

  /** A stream the step is not about keeps its log. */
  lemma OtherStreamLog(p: CPart, l: Limits, D: Logs, U: Logs, i: nat, c: nat, ins: seq<Frame>, out: seq<Frame>, j: nat, h: nat)
    requires |D| == |U| && c < |D| && h < |D| && OnlyOf(ins, i) && OnlyOf(out, i) && j != i
    requires CPartLog(p, l, Proj(D[h], j), Proj(U[h], j))
    ensures CPartLog(p, l, Proj(Put(D, c, ins)[h], j), Proj(Put(U, c, out)[h], j))
  {
    OnlyOfOthers(D[c], ins, i, j);
    OnlyOfOthers(U[c], out, i, j);
  }

  lemma CLogStepStreams(cl: Client, cl': Client, l: Limits, D: Logs, U: Logs, i: nat, c: nat, ins: seq<Frame>, out: seq<Frame>)
    requires CLogStep(cl, cl', l, D, U, i, c, ins, out) && CStreamsLog(cl, l, D, U)
    ensures CStreamsLog(cl', l, Put(D, c, ins), Put(U, c, out))
  {
    var D', U' := Put(D, c, ins), Put(U, c, out);
    CSameHomes(cl, cl', i, c);
    forall j | j in cl'.homes
      ensures cl'.homes[j] < |D'| && CPartLog(CPartOf(cl', j), l, Proj(D'[cl'.homes[j]], j), Proj(U'[cl'.homes[j]], j))
    {
      if j != i {
        assert CPartOf(cl', j) == CPartOf(cl, j);
        OtherStreamLog(CPartOf(cl, j), l, D, U, i, c, ins, out, j, cl.homes[j]);
      }
    }
    forall j | j !in cl'.homes ensures CPartLog(CPartOf(cl', j), l, [], []) {
      assert CPartOf(cl', j) == CPartOf(cl, j);
    }
  }

  lemma CLogStepLanes(cl: Client, cl': Client, l: Limits, D: Logs, U: Logs, i: nat, c: nat, ins: seq<Frame>, out: seq<Frame>)
    requires CLogStep(cl, cl', l, D, U, i, c, ins, out) && CLanesLog(cl, l, D, U)
    ensures CLanesLog(cl', l, Put(D, c, ins), Put(U, c, out))
  {
    var D', U' := Put(D, c, ins), Put(U, c, out);
    forall d | 0 <= d < |D'| ensures CLaneLog(CLaneOf(cl', d), l, D'[d], U'[d]) {
      if d != c {
        assert CLaneOf(cl', d) == CLaneOf(cl, d);
      }
    }
  }

  lemma CHomeAppend(fs: seq<Frame>, gs: seq<Frame>, homes: map<nat, nat>, homes': map<nat, nat>, i: nat, c: nat)
    requires CHomeLog(fs, homes, c) && OnlyOf(gs, i)
    requires forall j :: j != i && j in homes ==> j in homes' && homes'[j] == homes[j]
    requires i in homes' && (c == homes'[i] || (i !in homes && gs == []) || (i in homes && homes[i] == homes'[i] && gs == []))
    ensures CHomeLog(fs + gs, homes', c)
  {
  }

  lemma CLogStepHomes(cl: Client, cl': Client, l: Limits, D: Logs, U: Logs, i: nat, c: nat, ins: seq<Frame>, out: seq<Frame>)
    requires CLogStep(cl, cl', l, D, U, i, c, ins, out) && CHomesLog(cl, D, U)
    ensures CHomesLog(cl', Put(D, c, ins), Put(U, c, out))
  {
    var D', U' := Put(D, c, ins), Put(U, c, out);
    CSameHomes(cl, cl', i, c);
    forall d | 0 <= d < |D'| ensures CHomeLog(D'[d], cl'.homes, d) && CHomeLog(U'[d], cl'.homes, d) {
      if d == c {
        CHomeAppend(D[d], ins, cl.homes, cl'.homes, i, d);
        CHomeAppend(U[d], out, cl.homes, cl'.homes, i, d);
      } else {
        CHomeAppend(D[d], [], cl.homes, cl'.homes, i, d);
        CHomeAppend(U[d], [], cl.homes, cl'.homes, i, d);
        assert D[d] + [] == D[d] && U[d] + [] == U[d];
      }
    }
  }

  lemma CLogStepInv(cl: Client, cl': Client, l: Limits, D: Logs, U: Logs, i: nat, c: nat, ins: seq<Frame>, out: seq<Frame>)
    requires ClientInv(cl, l, D, U) && CLogStep(cl, cl', l, D, U, i, c, ins, out)
    ensures ClientInv(cl', l, Put(D, c, ins), Put(U, c, out))
  {
    CLogStepStreams(cl, cl', l, D, U, i, c, ins, out);
    CLogStepLanes(cl, cl', l, D, U, i, c, ins, out);
    CLogStepHomes(cl, cl', l, D, U, i, c, ins, out);
  }
}
