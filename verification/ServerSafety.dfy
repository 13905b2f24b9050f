/** What the server keeps whatever the client sends: stream ids, tombstones, buffer accounting and
    the inbound credit windows. Nothing here assumes an honest peer. */
module ServerSafety {
  import opened Protocol
  import opened CreditSpec
  import opened Frames
  import opened ServerSpec

  /** Everything the server knows about stream i. */
  datatype Part = Part(
    stream: Option<ServerStream>,
    pump: Option<Pump>,
    delivered: bytes,
    outCredit: nat,
    inCredit: nat)

  function PartOf(s: Server, i: nat): Part {
    Part(if i in s.streams then Some(s.streams[i]) else None,
         if i in s.pumps then Some(s.pumps[i]) else None,
         GetBytes(s.delivered, i),
         Get(s.credit.outStream, Key(i, RequestBody)),
         Get(s.credit.inStream, Key(i, ResponseBody)))
  }

  /** Everything the server knows about channel c. */
  datatype Lane = Lane(outCredit: nat, inCredit: nat, stale: nat, lost: nat)

  function LaneOf(s: Server, c: nat): Lane {
    Lane(Get(s.credit.outChannel, c), Get(s.credit.inChannel, c), Get(s.stale, c), Get(s.lost, c))
  }

  /** The payload bytes stream i holds back, if it is live and sel is its channel or all channels. */
  function Held(m: map<nat, ServerStream>, sel: Option<nat>, i: nat): nat {
    if i in m && (sel.None? || sel.value == m[i].channel) then m[i].pendingBytes else 0
  }

  function HeldSum(m: map<nat, ServerStream>, sel: Option<nat>, n: nat): nat {
    if n == 0 then 0 else HeldSum(m, sel, n - 1) + Held(m, sel, n - 1)
  }

  lemma {:induction false} HeldSumSame(m: map<nat, ServerStream>, m': map<nat, ServerStream>, sel: Option<nat>, n: nat)
    requires forall j :: 0 <= j < n ==> Held(m', sel, j) == Held(m, sel, j)
    ensures HeldSum(m', sel, n) == HeldSum(m, sel, n)
  {
    if n > 0 {
      HeldSumSame(m, m', sel, n - 1);
    }
  }

  lemma {:induction false} HeldSumChange(m: map<nat, ServerStream>, m': map<nat, ServerStream>, sel: Option<nat>, n: nat, i: nat)
    requires i < n
    requires forall j :: 0 <= j < n && j != i ==> Held(m', sel, j) == Held(m, sel, j)
    ensures HeldSum(m', sel, n) + Held(m, sel, i) == HeldSum(m, sel, n) + Held(m', sel, i)
    ensures Held(m, sel, i) <= HeldSum(m, sel, n)
  {
    if n - 1 == i {
      HeldSumSame(m, m', sel, n - 1);
    } else {
      HeldSumChange(m, m', sel, n - 1, i);
    }
  }

  /** A live stream's own bookkeeping; settled adds that nothing deliverable is waiting. */
  ghost predicate LiveSafe(p: Part, l: Limits, channels: nat) {
    && p.stream.Some? && p.pump.Some?
    && p.stream.value.channel == p.pump.value.channel < channels
    && p.stream.value.recvEnd == None
    && p.stream.value.pendingBytes == |Concat(p.stream.value.pending)|
    && p.inCredit + p.stream.value.pendingBytes == l.streamCreditBytes
  }

  ghost predicate Settled(p: Part) {
    p.stream.Some? && p.stream.value.pending != [] ==> !Deliverable(p.stream.value)
  }

  ghost predicate IdsSafe(s: Server) {
    && IsValidDataChannelCount(s.dataChannels)
    && s.nextStreamId == s.nextChannelIndex + 1
    && (forall i :: i in s.pumps <==> 1 <= i < s.nextStreamId)
    && (forall i :: i in s.streams ==> 1 <= i < s.nextStreamId)
    && (forall i :: i in s.closed ==> 1 <= i < s.nextStreamId && i !in s.streams)
  }

  ghost predicate StreamsSafe(s: Server, l: Limits) {
    && (forall i :: i in s.pumps ==> s.pumps[i].channel < s.dataChannels)
    && (forall i :: i in s.streams ==> LiveSafe(PartOf(s, i), l, s.dataChannels))
    && (forall i :: i !in s.pumps ==> PartOf(s, i).delivered == [])
  }

  ghost predicate BufferSafe(s: Server, l: Limits) {
    s.pendingDataBytes == HeldSum(s.streams, None, s.nextStreamId) <= l.pendingDataBytes
  }

  ghost predicate LaneSafe(s: Server, l: Limits, c: nat) {
    Get(s.credit.inChannel, c) + HeldSum(s.streams, Some(c), s.nextStreamId) + Get(s.lost, c) == l.channelCreditBytes
  }

  ghost predicate CoreSafe(s: Server, l: Limits) {
    && IsTunnelLimits(l)
    && IdsSafe(s)
    && StreamsSafe(s, l)
    && BufferSafe(s, l)
    && forall c :: 0 <= c < s.dataChannels ==> LaneSafe(s, l, c)
  }

  ghost predicate AllSettled(s: Server) {
    forall i :: i in s.streams ==> Settled(PartOf(s, i))
  }

  ghost predicate ServerSafe(s: Server, l: Limits) {
    CoreSafe(s, l) && AllSettled(s)
  }

  /** s' differs from s only in stream i and channel c; no id was issued. */
  ghost predicate Moves(s: Server, s': Server, i: nat, c: nat) {
    && s'.dataChannels == s.dataChannels
    && s'.nextStreamId == s.nextStreamId
    && s'.nextChannelIndex == s.nextChannelIndex
    && s'.pumps.Keys == s.pumps.Keys
    && (forall j :: j != i ==> PartOf(s', j) == PartOf(s, j))
    && (forall d :: d != c ==> LaneOf(s', d) == LaneOf(s, d))
  }

  lemma MovesTrans(s: Server, s': Server, s'': Server, i: nat, c: nat)
    requires Moves(s, s', i, c) && Moves(s', s'', i, c)
    ensures Moves(s, s'', i, c)
  {
    forall j | j != i ensures PartOf(s'', j) == PartOf(s, j) {
      assert PartOf(s', j) == PartOf(s, j);
    }
    forall d | d != c ensures LaneOf(s'', d) == LaneOf(s, d) {
      assert LaneOf(s', d) == LaneOf(s, d);
    }
  }

  lemma MovesHeld(s: Server, s': Server, i: nat, c: nat, sel: Option<nat>, j: nat)
    requires Moves(s, s', i, c) && j != i
    ensures Held(s'.streams, sel, j) == Held(s.streams, sel, j)
    ensures j in s'.streams <==> j in s.streams
  {
    assert PartOf(s', j) == PartOf(s, j);
  }

  lemma MovesIds(s: Server, s': Server, i: nat, c: nat)
    requires IdsSafe(s) && Moves(s, s', i, c)
    requires i in s.streams || i !in s'.streams
    requires forall j :: j in s'.closed ==> j !in s'.streams && (j in s.closed || j == i)
    requires i in s.pumps
    ensures IdsSafe(s')
  {
    forall j | j in s'.streams ensures 1 <= j < s'.nextStreamId {
      if j != i {
        MovesHeld(s, s', i, c, None, j);
      }
    }
  }

  lemma MovesStreams(s: Server, s': Server, l: Limits, i: nat, c: nat)
    requires StreamsSafe(s, l) && Moves(s, s', i, c)
    requires i in s.pumps && i in s'.pumps && s'.pumps[i].channel == s.pumps[i].channel
    requires i in s'.streams ==> LiveSafe(PartOf(s', i), l, s.dataChannels)
    ensures StreamsSafe(s', l)
  {
    forall j | j in s'.streams ensures LiveSafe(PartOf(s', j), l, s'.dataChannels) {
      if j != i {
        assert PartOf(s', j) == PartOf(s, j);
      }
    }
    forall j | j in s'.pumps ensures s'.pumps[j].channel < s'.dataChannels {
      if j != i {
        assert PartOf(s', j) == PartOf(s, j);
      }
    }
    forall j | j !in s'.pumps ensures PartOf(s', j).delivered == [] {
      assert PartOf(s', j) == PartOf(s, j);
    }
  }

  lemma MovesSum(s: Server, s': Server, i: nat, c: nat, sel: Option<nat>)
    requires Moves(s, s', i, c) && i < s.nextStreamId
    ensures HeldSum(s'.streams, sel, s'.nextStreamId) + Held(s.streams, sel, i)
         == HeldSum(s.streams, sel, s.nextStreamId) + Held(s'.streams, sel, i)
    ensures Held(s.streams, sel, i) <= HeldSum(s.streams, sel, s.nextStreamId)
  {
    forall j | 0 <= j < s.nextStreamId && j != i ensures Held(s'.streams, sel, j) == Held(s.streams, sel, j) {
      MovesHeld(s, s', i, c, sel, j);
    }
    HeldSumChange(s.streams, s'.streams, sel, s.nextStreamId, i);
  }

  lemma MovesLane(s: Server, s': Server, l: Limits, i: nat, c: nat, d: nat)
    requires LaneSafe(s, l, d) && Moves(s, s', i, c) && i < s.nextStreamId
    requires i in s.streams ==> s.streams[i].channel == c
    requires i in s'.streams ==> s'.streams[i].channel == c
    requires Get(s'.credit.inChannel, c) + Held(s'.streams, None, i) + Get(s'.lost, c)
          == Get(s.credit.inChannel, c) + Held(s.streams, None, i) + Get(s.lost, c)
    ensures LaneSafe(s', l, d)
  {
    MovesSum(s, s', i, c, Some(d));
    if d != c {
      assert LaneOf(s', d) == LaneOf(s, d);
    }
  }

  /** Stream i's own books after a change from s to s' on channel c. */
  ghost predicate Balanced(s: Server, s': Server, l: Limits, i: nat, c: nat) {
    && i in s.pumps && i in s'.pumps && c == s.pumps[i].channel == s'.pumps[i].channel
    && (i in s.streams || i !in s'.streams)
    && (i in s'.streams ==> LiveSafe(PartOf(s', i), l, s.dataChannels))
    && (forall j :: j in s'.closed ==> j !in s'.streams && (j in s.closed || j == i))
    && s'.pendingDataBytes + Held(s.streams, None, i) == s.pendingDataBytes + Held(s'.streams, None, i)
    && s'.pendingDataBytes <= l.pendingDataBytes
    && Get(s'.credit.inChannel, c) + Held(s'.streams, None, i) + Get(s'.lost, c)
       == Get(s.credit.inChannel, c) + Held(s.streams, None, i) + Get(s.lost, c)
  }

  /** A change confined to stream i on its own channel keeps CoreSafe when i's books balance. */
  lemma MovesSafe(s: Server, s': Server, l: Limits, i: nat, c: nat)
    requires CoreSafe(s, l) && Moves(s, s', i, c) && Balanced(s, s', l, i, c)
    ensures CoreSafe(s', l)
  {
    MovesIds(s, s', i, c);
    MovesStreams(s, s', l, i, c);
    MovesSum(s, s', i, c, None);
    forall d | 0 <= d < s'.dataChannels ensures LaneSafe(s', l, d) {
      assert i in s.streams ==> LiveSafe(PartOf(s, i), l, s.dataChannels);
      MovesLane(s, s', l, i, c, d);
    }
  }
}
