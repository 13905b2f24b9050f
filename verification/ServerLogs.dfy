/** The server's state in terms of the frames it has sent (D, one log per channel) and received (U). */
module ServerLogs {
  import opened Protocol
  import opened Frames
  import opened ServerSpec
  import opened ServerSafety

  type Logs = seq<seq<Frame>>

  function Put(logs: Logs, c: nat, fs: seq<Frame>): Logs
    requires c < |logs|
  {
    logs[c := logs[c] + fs]
  }

  function RestOf(p: Pump): bytes {
    if p.rest.None? then [] else p.rest.value
  }

  /** What the pump has read is what it has sent plus what is left of the current chunk. */
  ghost predicate PumpLog(p: Pump, sent: seq<Frame>) {
    && WellDown(sent) && sent != []
    && p.sendNext == Count(sent)
    && match p.status
       case Active => !Ended(sent) && p.read == Payload(sent) + RestOf(p)
       case EndSent => Ended(sent) && p.read == Payload(sent)
       case Failed => !Ended(sent) && Payload(sent) <= p.read
  }

  /** Facts that outlive the stream. */
  ghost predicate FlowLog(p: Part, l: Limits, sent: seq<Frame>, recvd: seq<Frame>) {
    && |Payload(sent)| <= l.streamCreditBytes + StreamGrants(recvd)
    && StreamGrants(sent) <= |Payload(recvd)|
    && p.delivered <= Payload(recvd)
  }

  ghost predicate LiveLog(st: ServerStream, p: Part, l: Limits, sent: seq<Frame>, recvd: seq<Frame>) {
    && !Aborted(sent) && !Ended(recvd) && !Aborted(recvd)
    && st.recvNext == Count(recvd)
    && p.delivered + Concat(st.pending) == Payload(recvd)
    && p.outCredit + |Payload(sent)| == l.streamCreditBytes + StreamGrants(recvd)
    && p.inCredit + |Payload(recvd)| == l.streamCreditBytes + StreamGrants(sent)
  }

  ghost predicate PartLog(p: Part, l: Limits, sent: seq<Frame>, recvd: seq<Frame>) {
    && p.pump.Some? && PumpLog(p.pump.value, sent)
    && FlowLog(p, l, sent, recvd)
    && (p.stream.Some? ==> LiveLog(p.stream.value, p, l, sent, recvd))
  }

  ghost predicate LaneLog(a: Lane, l: Limits, sent: seq<Frame>, recvd: seq<Frame>) {
    && a.outCredit + |Payload(sent)| == l.channelCreditBytes + ChannelGrants(recvd)
    && a.inCredit + |Payload(recvd)| == l.channelCreditBytes + a.stale + ChannelGrants(sent)
  }

  ghost predicate HomeLog(fs: seq<Frame>, pumps: map<nat, Pump>, c: nat) {
    forall k :: 0 <= k < |fs| && !fs[k].ChannelCredit? ==> fs[k].streamId in pumps && pumps[fs[k].streamId].channel == c
  }

  ghost predicate StreamsLog(s: Server, l: Limits, D: Logs, U: Logs)
    requires |D| == |U|
  {
    forall i :: i in s.pumps ==>
      s.pumps[i].channel < |D| && PartLog(PartOf(s, i), l, Proj(D[s.pumps[i].channel], i), Proj(U[s.pumps[i].channel], i))
  }

  ghost predicate LanesLog(s: Server, l: Limits, D: Logs, U: Logs)
    requires |D| == |U|
  {
    forall c :: 0 <= c < |D| ==> LaneLog(LaneOf(s, c), l, D[c], U[c])
  }

  ghost predicate HomesLog(s: Server, D: Logs, U: Logs)
    requires |D| == |U|
  {
    forall c :: 0 <= c < |D| ==> HomeLog(D[c], s.pumps, c) && HomeLog(U[c], s.pumps, c)
  }

  ghost predicate ServerLog(s: Server, l: Limits, D: Logs, U: Logs) {
    |D| == |U| == s.dataChannels && StreamsLog(s, l, D, U) && LanesLog(s, l, D, U) && HomesLog(s, D, U)
  }

  ghost predicate OnlyOf(fs: seq<Frame>, i: nat) {
    forall k :: 0 <= k < |fs| ==> fs[k].ChannelCredit? || fs[k].streamId == i
  }

  lemma {:induction false} NoFrames(fs: seq<Frame>, i: nat)
    requires forall k :: 0 <= k < |fs| ==> !Of(fs[k], i)
    ensures Proj(fs, i) == []
  {
    if fs != [] {
      NoFrames(fs[..|fs| - 1], i);
    }
  }

  lemma OnlyOfOthers(fs: seq<Frame>, gs: seq<Frame>, i: nat, j: nat)
    requires OnlyOf(gs, i) && j != i
    ensures Proj(fs + gs, j) == Proj(fs, j)
  {
    ProjAppend(fs, gs, j);
    NoFrames(gs, j);
  }

  lemma HomeAppend(fs: seq<Frame>, gs: seq<Frame>, pumps: map<nat, Pump>, pumps': map<nat, Pump>, i: nat, c: nat)
    requires HomeLog(fs, pumps, c) && OnlyOf(gs, i)
    requires forall j :: j in pumps ==> j in pumps' && pumps'[j].channel == pumps[j].channel
    requires i in pumps' && pumps'[i].channel == c
    ensures HomeLog(fs + gs, pumps', c)
  {
  }

  lemma SameHomes(s: Server, s': Server, i: nat, c: nat)
    requires Moves(s, s', i, c) && i in s.pumps && i in s'.pumps && s'.pumps[i].channel == s.pumps[i].channel
    ensures forall j :: j in s.pumps ==> j in s'.pumps && s'.pumps[j].channel == s.pumps[j].channel
  {
    forall j | j in s.pumps ensures j in s'.pumps && s'.pumps[j].channel == s.pumps[j].channel {
      if j != i {
        assert PartOf(s', j) == PartOf(s, j);
      }
    }
  }

  /** A step of stream i on its channel c that sends out and receives ins. */
  ghost predicate LogStep(s: Server, s': Server, l: Limits, D: Logs, U: Logs, i: nat, c: nat, out: seq<Frame>, ins: seq<Frame>) {
    && Moves(s, s', i, c) && OnlyOf(out, i) && OnlyOf(ins, i)
    && |D| == |U| && c < |D|
    && i in s.pumps && i in s'.pumps && s.pumps[i].channel == s'.pumps[i].channel == c
    && PartLog(PartOf(s', i), l, Proj(D[c] + out, i), Proj(U[c] + ins, i))
    && LaneLog(LaneOf(s', c), l, D[c] + out, U[c] + ins)
  }

  lemma LogStepStreams(s: Server, s': Server, l: Limits, D: Logs, U: Logs, i: nat, c: nat, out: seq<Frame>, ins: seq<Frame>)
    requires LogStep(s, s', l, D, U, i, c, out, ins) && StreamsLog(s, l, D, U)
    ensures StreamsLog(s', l, Put(D, c, out), Put(U, c, ins))
  {
    var D', U' := Put(D, c, out), Put(U, c, ins);
    SameHomes(s, s', i, c);
    forall j | j in s'.pumps
      ensures s'.pumps[j].channel < |D'| && PartLog(PartOf(s', j), l, Proj(D'[s'.pumps[j].channel], j), Proj(U'[s'.pumps[j].channel], j))
    {
      if j != i {
        assert PartOf(s', j) == PartOf(s, j);
        OnlyOfOthers(D[c], out, i, j);
        OnlyOfOthers(U[c], ins, i, j);
      }
    }
  }

  lemma LogStepLanes(s: Server, s': Server, l: Limits, D: Logs, U: Logs, i: nat, c: nat, out: seq<Frame>, ins: seq<Frame>)
    requires LogStep(s, s', l, D, U, i, c, out, ins) && LanesLog(s, l, D, U)
    ensures LanesLog(s', l, Put(D, c, out), Put(U, c, ins))
  {
    var D', U' := Put(D, c, out), Put(U, c, ins);
    forall d | 0 <= d < |D'| ensures LaneLog(LaneOf(s', d), l, D'[d], U'[d]) {
      if d != c {
        assert LaneOf(s', d) == LaneOf(s, d);
      }
    }
  }

  lemma LogStepHomes(s: Server, s': Server, l: Limits, D: Logs, U: Logs, i: nat, c: nat, out: seq<Frame>, ins: seq<Frame>)
    requires LogStep(s, s', l, D, U, i, c, out, ins) && HomesLog(s, D, U)
    ensures HomesLog(s', Put(D, c, out), Put(U, c, ins))
  {
    var D', U' := Put(D, c, out), Put(U, c, ins);
    SameHomes(s, s', i, c);
    forall d | 0 <= d < |D'| ensures HomeLog(D'[d], s'.pumps, d) && HomeLog(U'[d], s'.pumps, d) {
      if d == c {
        HomeAppend(D[c], out, s.pumps, s'.pumps, i, c);
        HomeAppend(U[c], ins, s.pumps, s'.pumps, i, c);
      }
    }
  }

  lemma LogStepLog(s: Server, s': Server, l: Limits, D: Logs, U: Logs, i: nat, c: nat, out: seq<Frame>, ins: seq<Frame>)
    requires ServerLog(s, l, D, U) && LogStep(s, s', l, D, U, i, c, out, ins)
    ensures ServerLog(s', l, Put(D, c, out), Put(U, c, ins))
  {
    LogStepStreams(s, s', l, D, U, i, c, out, ins);
    LogStepLanes(s, s', l, D, U, i, c, out, ins);
    LogStepHomes(s, s', l, D, U, i, c, out, ins);
  }
}
