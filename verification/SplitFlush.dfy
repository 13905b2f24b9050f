/** One live stream at the server when a flush is not one step: a flusher enqueues the head of the queue to the
    public body, awaits, and only then shifts it off and counts it down; meanwhile a pull can start another
    flusher and data can arrive. Payloads are named by their sequence numbers. */
module SplitFlush {
  import opened Protocol

  /** lengths are those of the payloads accepted so far; shifting are the payloads whose flushers have still to
      shift. others are the bytes other streams have queued, here those of them on this stream's channel.
      doubled counts bytes enqueued again, clamped what Math.max(0, ...) cut off, and the two capped counts
      the credit cut off at the maximum; no event looks at these four. */
  datatype Flush = Flush(
    lengths: seq<nat>,
    queue: seq<nat>,
    body: seq<nat>,
    room: Option<nat>,
    shifting: seq<nat>,
    pendingBytes: int,
    pendingDataBytes: nat,
    window: nat,
    channel: nat,
    others: nat,
    here: nat,
    doubled: nat,
    clamped: nat,
    streamCapped: nat,
    channelCapped: nat)

  datatype FlushEvent =
    | DataArrives(length: nat)
    | BodyAttached
    | BodyRead
    | FlusherEnqueues
    | FlusherShifts(k: nat)
    | OtherQueues(n: nat, onChannel: bool)
    | OtherFrees(n: nat, onChannel: bool)

  function Start(l: Limits): Flush {
    Flush([], [], [], None, [], 0, 0, l.streamCreditBytes, l.channelCreditBytes, 0, 0, 0, 0, 0, 0)
  }

  predicate HasRoom(s: Flush) {
    s.room.Some? && s.room.value > 0
  }

  function LengthOf(s: Flush, i: nat): nat {
    if i < |s.lengths| then s.lengths[i] else 0
  }

  /** While the stream lives: data passes the credit check, and what is queued stays within the limits. */
  predicate CanHappen(s: Flush, l: Limits, ev: FlushEvent) {
    match ev
    case DataArrives(n) =>
      && n <= s.window && n <= s.channel
      && (HasRoom(s) || (s.pendingBytes + n <= l.pendingDataBytes && s.pendingDataBytes + n <= l.pendingDataBytes))
    case BodyAttached => s.room.None?
    case BodyRead => s.room.Some?
    case FlusherEnqueues => s.queue != [] && HasRoom(s)
    case FlusherShifts(k) => k < |s.shifting|
    case OtherQueues(n, onChannel) => s.pendingDataBytes + n <= l.pendingDataBytes && (onChannel ==> n <= s.channel)
    case OtherFrees(n, onChannel) => n <= s.others && (if onChannel then n <= s.here else n <= s.others - s.here)
  }

  /** responseController.enqueue and the grant that follows it. */
  function Enqueue(s: Flush, i: nat): Flush
    requires HasRoom(s)
  {
    var n := LengthOf(s, i);
    s.(body := s.body + [i], room := Some(s.room.value - 1),
       window := AddCredit(s.window, n), streamCapped := s.streamCapped + (s.window + n - AddCredit(s.window, n)),
       channel := AddCredit(s.channel, n), channelCapped := s.channelCapped + (s.channel + n - AddCredit(s.channel, n)),
       doubled := s.doubled + if i in s.body then n else 0)
  }

  function Take(s: Flush, n: nat): Flush
    requires n <= s.window && n <= s.channel
  {
    s.(lengths := s.lengths + [n], window := s.window - n, channel := s.channel - n)
  }

  /** pendingDataBytes = Math.max(0, pendingDataBytes - n). */
  function CountDown(s: Flush, n: nat): Flush {
    if n <= s.pendingDataBytes then s.(pendingDataBytes := s.pendingDataBytes - n)
    else s.(pendingDataBytes := 0, clamped := s.clamped + (n - s.pendingDataBytes))
  }

  /** shift() takes whatever is at the head by now, and nothing from an empty queue. */
  function Shift(s: Flush, k: nat): Flush
    requires k < |s.shifting|
  {
    var n := LengthOf(s, s.shifting[k]);
    CountDown(s, n).(queue := if s.queue == [] then [] else s.queue[1..],
                     shifting := s.shifting[..k] + s.shifting[k + 1..], pendingBytes := s.pendingBytes - n)
  }

  function Happen(s: Flush, l: Limits, ev: FlushEvent): Flush
    requires CanHappen(s, l, ev)
  {
    match ev
    case DataArrives(n) =>
      var i, t := |s.lengths|, Take(s, n);
      if HasRoom(s) then Enqueue(t, i)
      else t.(queue := s.queue + [i], pendingBytes := s.pendingBytes + n, pendingDataBytes := s.pendingDataBytes + n)
    case BodyAttached => s.(room := Some(1))
    case BodyRead => s.(room := Some(s.room.value + 1))
    case FlusherEnqueues => Enqueue(s, s.queue[0]).(shifting := s.shifting + [s.queue[0]])
    case FlusherShifts(k) => Shift(s, k)
    case OtherQueues(n, onChannel) =>
      var t := s.(pendingDataBytes := s.pendingDataBytes + n, others := s.others + n);
      if onChannel then t.(channel := s.channel - n, here := s.here + n) else t
    case OtherFrees(n, onChannel) =>
      var t := CountDown(s, n).(others := s.others - n);
      if onChannel then
        t.(channel := AddCredit(s.channel, n), here := s.here - n,
           channelCapped := s.channelCapped + (s.channel + n - AddCredit(s.channel, n)))
      else t
  }

  function HappenAll(s: Flush, l: Limits, evs: seq<FlushEvent>): Option<Flush>
    decreases |evs|
  {
    if evs == [] then Some(s)
    else if CanHappen(s, l, evs[0]) then HappenAll(Happen(s, l, evs[0]), l, evs[1..])
    else None
  }

  // ----- what makes an event harmless -----

  /** No flusher enqueues while another has still to shift. */
  predicate Single(s: Flush, ev: FlushEvent) {
    ev.FlusherEnqueues? ==> s.shifting == []
  }

  /** Moreover, data is enqueued directly only past a queue whose payloads have all been enqueued. */
  predicate Harmless(s: Flush, ev: FlushEvent) {
    Single(s, ev) && (ev.DataArrives? && HasRoom(s) ==> |s.queue| == |s.shifting|)
  }

  predicate SingleRun(s: Flush, l: Limits, evs: seq<FlushEvent>)
    decreases |evs|
  {
    evs != [] && CanHappen(s, l, evs[0]) ==> Single(s, evs[0]) && SingleRun(Happen(s, l, evs[0]), l, evs[1..])
  }

  predicate HarmlessRun(s: Flush, l: Limits, evs: seq<FlushEvent>)
    decreases |evs|
  {
    evs != [] && CanHappen(s, l, evs[0]) ==> Harmless(s, evs[0]) && HarmlessRun(Happen(s, l, evs[0]), l, evs[1..])
  }

  // ----- order -----

  /** The body is a prefix of what was accepted. */
  predicate IsPrefix(body: seq<nat>, accepted: nat) {
    |body| <= accepted && forall k :: 0 <= k < |body| ==> body[k] == k
  }

  predicate OutOfOrder(body: seq<nat>) {
    exists k :: 0 <= k < |body| && body[k] != k
  }

  /** At most one flusher is between its two halves, the head it has still to shift is in the body, and the rest
      of the queue goes on where the body ends. */
  ghost predicate Orderly(s: Flush) {
    && IsPrefix(s.body, |s.lengths|) && |s.shifting| <= 1 && |s.shifting| <= |s.queue|
    && (s.shifting != [] ==> s.queue[0] < |s.body|)
    && |s.body| + |s.queue| == |s.lengths| + |s.shifting|
    && forall k :: |s.shifting| <= k < |s.queue| ==> s.queue[k] == |s.body| + k - |s.shifting|
  }

  lemma HarmlessKeeps(s: Flush, l: Limits, ev: FlushEvent)
    requires Orderly(s) && CanHappen(s, l, ev) && Harmless(s, ev)
    ensures Orderly(Happen(s, l, ev))
  {
    if ev.FlusherShifts? {
      assert forall k :: 0 <= k < |s.queue| - 1 ==> s.queue[1..][k] == s.queue[k + 1];
    }
  }

  lemma HarmfulBreaks(s: Flush, l: Limits, ev: FlushEvent)
    requires Orderly(s) && CanHappen(s, l, ev) && !Harmless(s, ev)
    ensures OutOfOrder(Happen(s, l, ev).body)
  {
    assert Happen(s, l, ev).body[|s.body|] != |s.body|;
  }

  /** A body that has lost its order never regains it. */
  lemma {:induction false} StaysBroken(s: Flush, l: Limits, evs: seq<FlushEvent>, t: Flush)
    requires HappenAll(s, l, evs) == Some(t) && OutOfOrder(s.body)
    ensures !IsPrefix(t.body, |t.lengths|)
    decreases |evs|
  {
    if evs != [] {
      var k :| 0 <= k < |s.body| && s.body[k] != k;
      assert Happen(s, l, evs[0]).body[k] != k;
      StaysBroken(Happen(s, l, evs[0]), l, evs[1..], t);
    }
  }

  lemma {:induction false} PrefixFrom(s: Flush, l: Limits, evs: seq<FlushEvent>, t: Flush)
    requires Orderly(s) && HappenAll(s, l, evs) == Some(t)
    ensures IsPrefix(t.body, |t.lengths|) <==> HarmlessRun(s, l, evs)
    decreases |evs|
  {
    if evs != [] {
      var u := Happen(s, l, evs[0]);
      if Harmless(s, evs[0]) {
        HarmlessKeeps(s, l, evs[0]);
        PrefixFrom(u, l, evs[1..], t);
      } else {
        HarmfulBreaks(s, l, evs[0]);
        StaysBroken(u, l, evs[1..], t);
      }
    }
  }

  /** However flushers, reads and arrivals interleave: the public body is a prefix of the accepted payloads if
      and only if every event was harmless. */
  lemma BodyIsPrefixExactly(l: Limits, evs: seq<FlushEvent>, t: Flush)
    requires HappenAll(Start(l), l, evs) == Some(t)
    ensures IsPrefix(t.body, |t.lengths|) <==> HarmlessRun(Start(l), l, evs)
  {
    PrefixFrom(Start(l), l, evs, t);
  }

  // ----- windows -----

  /** The bytes of the first n payloads that are not in the body. */
  function WaitingBelow(lengths: seq<nat>, body: seq<nat>, n: nat): nat
    requires n <= |lengths|
  {
    if n == 0 then 0 else WaitingBelow(lengths, body, n - 1) + if n - 1 in body then 0 else lengths[n - 1]
  }

  function Waiting(s: Flush): nat {
    WaitingBelow(s.lengths, s.body, |s.lengths|)
  }

  lemma {:induction false} WaitingGrows(lengths: seq<nat>, body: seq<nat>, more: nat, n: nat)
    requires n <= |lengths|
    ensures WaitingBelow(lengths + [more], body, n) == WaitingBelow(lengths, body, n)
  {
    if n > 0 {
      WaitingGrows(lengths, body, more, n - 1);
    }
  }

  lemma {:induction false} WaitingShrinks(lengths: seq<nat>, body: seq<nat>, i: nat, n: nat)
    requires n <= |lengths|
    ensures WaitingBelow(lengths, body + [i], n) ==
            WaitingBelow(lengths, body, n) - if i < n && i !in body then lengths[i] else 0
    ensures i < n && i !in body ==> WaitingBelow(lengths, body, n) >= lengths[i]
  {
    if n > 0 {
      WaitingShrinks(lengths, body, i, n - 1);
      assert n - 1 in body + [i] <==> n - 1 in body || n - 1 == i;
    }
  }

  ghost predicate Known(s: Flush) {
    && (forall k :: 0 <= k < |s.body| ==> s.body[k] < |s.lengths|)
    && (forall k :: 0 <= k < |s.queue| ==> s.queue[k] < |s.lengths|)
    && (forall k :: 0 <= k < |s.shifting| ==> s.shifting[k] < |s.lengths|)
    && s.here <= s.others
  }

  /** Both inbound windows against what has not reached the body. */
  ghost predicate WindowLaw(s: Flush, l: Limits) {
    && s.window + s.streamCapped + Waiting(s) == l.streamCreditBytes + s.doubled
    && s.channel + s.channelCapped + Waiting(s) + s.here == l.channelCreditBytes + s.doubled
  }

  lemma EnqueueLaw(s: Flush, l: Limits, i: nat)
    requires WindowLaw(s, l) && HasRoom(s) && i < |s.lengths|
    ensures WindowLaw(Enqueue(s, i), l)
  {
    WaitingShrinks(s.lengths, s.body, i, |s.lengths|);
  }

  lemma TakeLaw(s: Flush, l: Limits, n: nat)
    requires WindowLaw(s, l) && Known(s) && n <= s.window && n <= s.channel
    ensures WindowLaw(Take(s, n), l)
  {
    WaitingGrows(s.lengths, s.body, n, |s.lengths|);
    assert |s.lengths| !in s.body;
  }

  lemma HappenLaw(s: Flush, l: Limits, ev: FlushEvent)
    requires WindowLaw(s, l) && Known(s) && CanHappen(s, l, ev)
    ensures WindowLaw(Happen(s, l, ev), l)
  {
    if ev.DataArrives? {
      TakeLaw(s, l, ev.length);
      if HasRoom(s) {
        EnqueueLaw(Take(s, ev.length), l, |s.lengths|);
      }
    } else if ev.FlusherEnqueues? {
      EnqueueLaw(s, l, s.queue[0]);
    }
  }

  lemma HappenKnown(s: Flush, l: Limits, ev: FlushEvent)
    requires Known(s) && CanHappen(s, l, ev)
    ensures Known(Happen(s, l, ev))
  {
  }

  lemma {:induction false} LawFrom(s: Flush, l: Limits, evs: seq<FlushEvent>, t: Flush)
    requires WindowLaw(s, l) && Known(s) && HappenAll(s, l, evs) == Some(t)
    ensures WindowLaw(t, l) && Known(t)
    decreases |evs|
  {
    if evs != [] {
      HappenLaw(s, l, evs[0]);
      HappenKnown(s, l, evs[0]);
      LawFrom(Happen(s, l, evs[0]), l, evs[1..], t);
    }
  }

  // ----- counts -----

  function Bytes(s: Flush, queue: seq<nat>): nat {
    if queue == [] then 0 else LengthOf(s, queue[0]) + Bytes(s, queue[1..])
  }

  lemma {:induction false} BytesSame(s: Flush, t: Flush, queue: seq<nat>)
    requires forall k :: 0 <= k < |queue| ==> LengthOf(t, queue[k]) == LengthOf(s, queue[k])
    ensures Bytes(t, queue) == Bytes(s, queue)
  {
    if queue != [] {
      BytesSame(s, t, queue[1..]);
    }
  }

  lemma {:induction false} BytesSnoc(s: Flush, queue: seq<nat>, i: nat)
    ensures Bytes(s, queue + [i]) == Bytes(s, queue) + LengthOf(s, i)
  {
    if queue != [] {
      assert (queue + [i])[1..] == queue[1..] + [i];
      BytesSnoc(s, queue[1..], i);
    }
  }

  /** At most the head of the queue is between enqueue and shift, and nothing else of it is in the body. */
  ghost predicate OneFlusher(s: Flush) {
    && |s.shifting| <= 1 && (s.shifting != [] ==> s.queue != [] && s.queue[0] == s.shifting[0] && s.queue[0] in s.body)
    && (forall k :: |s.shifting| <= k < |s.queue| ==> s.queue[k] !in s.body)
    && (forall j, k :: 0 <= j < k < |s.queue| ==> s.queue[j] < s.queue[k])
  }

  /** The stream's count is what is queued, the tunnel's adds the other streams, and no clamp has acted. */
  ghost predicate CountsRight(s: Flush) {
    && s.pendingBytes == Bytes(s, s.queue) && s.pendingDataBytes == s.pendingBytes + s.others
    && s.clamped == 0 && s.doubled == 0
  }

  lemma SingleOne(s: Flush, l: Limits, ev: FlushEvent)
    requires OneFlusher(s) && Known(s) && CanHappen(s, l, ev) && Single(s, ev)
    ensures OneFlusher(Happen(s, l, ev))
  {
    var t := Happen(s, l, ev);
    if ev.FlusherShifts? {
      assert forall k :: 0 <= k < |s.queue| - 1 ==> s.queue[1..][k] == s.queue[k + 1];
    } else if ev.FlusherEnqueues? {
      assert forall k :: 0 < k < |s.queue| ==> s.queue[0] < s.queue[k];
    }
  }

  lemma ArrivalCounts(s: Flush, l: Limits, n: nat)
    requires CountsRight(s) && Known(s) && CanHappen(s, l, DataArrives(n))
    ensures CountsRight(Happen(s, l, DataArrives(n)))
  {
    var t := Happen(s, l, DataArrives(n));
    BytesSame(s, t, s.queue);
    BytesSnoc(t, s.queue, |s.lengths|);
    assert |s.lengths| !in s.body;
  }

  lemma ShiftCounts(s: Flush, k: nat)
    requires CountsRight(s) && OneFlusher(s) && k < |s.shifting|
    ensures CountsRight(Shift(s, k))
  {
    BytesSame(s, Shift(s, k), s.queue[1..]);
  }

  lemma SingleCounts(s: Flush, l: Limits, ev: FlushEvent)
    requires OneFlusher(s) && CountsRight(s) && Known(s) && CanHappen(s, l, ev) && Single(s, ev)
    ensures CountsRight(Happen(s, l, ev))
  {
    if ev.DataArrives? {
      ArrivalCounts(s, l, ev.length);
    } else if ev.FlusherShifts? {
      ShiftCounts(s, ev.k);
    } else {
      BytesSame(s, Happen(s, l, ev), s.queue);
    }
  }

  lemma {:induction false} CountsFrom(s: Flush, l: Limits, evs: seq<FlushEvent>, t: Flush)
    requires OneFlusher(s) && CountsRight(s) && Known(s) && HappenAll(s, l, evs) == Some(t) && SingleRun(s, l, evs)
    ensures OneFlusher(t) && CountsRight(t) && Known(t)
    decreases |evs|
  {
    if evs != [] {
      SingleOne(s, l, evs[0]);
      SingleCounts(s, l, evs[0]);
      HappenKnown(s, l, evs[0]);
      CountsFrom(Happen(s, l, evs[0]), l, evs[1..], t);
    }
  }

  /** If no flusher enqueues before another's shift: both byte counts are exact, no clamp acts, and both inbound
      windows lack exactly what is waiting. */
  lemma SingleFlusherKeepsBooks(l: Limits, evs: seq<FlushEvent>, t: Flush)
    requires IsTunnelLimits(l) && HappenAll(Start(l), l, evs) == Some(t) && SingleRun(Start(l), l, evs)
    ensures t.pendingBytes == Bytes(t, t.queue) && t.pendingDataBytes == t.pendingBytes + t.others && t.clamped == 0
    ensures t.window + t.streamCapped + Waiting(t) == l.streamCreditBytes
    ensures t.channel + t.channelCapped + Waiting(t) + t.here == l.channelCreditBytes
  {
    CountsFrom(Start(l), l, evs, t);
    LawFrom(Start(l), l, evs, t);
  }

  /** doubled never shrinks, and lengths only grow. */
  lemma {:induction false} DoubledGrows(s: Flush, l: Limits, evs: seq<FlushEvent>, t: Flush)
    requires HappenAll(s, l, evs) == Some(t)
    ensures t.doubled >= s.doubled && s.lengths <= t.lengths
    decreases |evs|
  {
    if evs != [] {
      DoubledGrows(Happen(s, l, evs[0]), l, evs[1..], t);
    }
  }

  lemma {:induction false} DoubledFrom(s: Flush, l: Limits, evs: seq<FlushEvent>, t: Flush)
    requires OneFlusher(s) && CountsRight(s) && Known(s) && HappenAll(s, l, evs) == Some(t)
    requires forall k :: 0 <= k < |t.lengths| ==> t.lengths[k] > 0
    ensures t.doubled == 0 <==> SingleRun(s, l, evs)
    decreases |evs|
  {
    if evs != [] {
      var u := Happen(s, l, evs[0]);
      DoubledGrows(u, l, evs[1..], t);
      HappenKnown(s, l, evs[0]);
      if Single(s, evs[0]) {
        SingleOne(s, l, evs[0]);
        SingleCounts(s, l, evs[0]);
        DoubledFrom(u, l, evs[1..], t);
      } else {
        assert t.lengths[s.queue[0]] == s.lengths[s.queue[0]] == LengthOf(s, s.queue[0]);
        assert u.doubled > 0;
      }
    }
  }

  /** The inbound window and the waiting bytes come to the configured size if and only if no flusher enqueued
      before another's shift, given that no payload was empty; otherwise they exceed it. */
  lemma WindowsHoldExactly(l: Limits, evs: seq<FlushEvent>, t: Flush)
    requires IsTunnelLimits(l) && HappenAll(Start(l), l, evs) == Some(t)
    requires forall k :: 0 <= k < |t.lengths| ==> t.lengths[k] > 0
    ensures t.window + t.streamCapped + Waiting(t) >= l.streamCreditBytes
    ensures t.window + t.streamCapped + Waiting(t) == l.streamCreditBytes <==> SingleRun(Start(l), l, evs)
    ensures t.channel + t.channelCapped + Waiting(t) + t.here == l.channelCreditBytes <==> SingleRun(Start(l), l, evs)
  {
    LawFrom(Start(l), l, evs, t);
    DoubledFrom(Start(l), l, evs, t);
  }

  /** Harmless runs are single, so they keep order, windows and counts. */
  lemma {:induction false} HarmlessIsSingle(s: Flush, l: Limits, evs: seq<FlushEvent>)
    requires HarmlessRun(s, l, evs)
    ensures SingleRun(s, l, evs)
    decreases |evs|
  {
    if evs != [] && CanHappen(s, l, evs[0]) {
      HarmlessIsSingle(Happen(s, l, evs[0]), l, evs[1..]);
    }
  }

  // ----- one turn, and two -----

  /** A turn of the loop whose halves are not separated keeps the body in order. */
  lemma WholeTurnsAreHarmless(s: Flush, l: Limits)
    requires Orderly(s) && s.shifting == [] && s.queue != [] && HasRoom(s)
    ensures var u := Happen(s, l, FlusherEnqueues);
            CanHappen(u, l, FlusherShifts(0)) && Orderly(Happen(u, l, FlusherShifts(0)))
            && Happen(u, l, FlusherShifts(0)).shifting == [] && Happen(u, l, FlusherShifts(0)).queue == s.queue[1..]
  {
    HarmlessKeeps(s, l, FlusherEnqueues);
    HarmlessKeeps(Happen(s, l, FlusherEnqueues), l, FlusherShifts(0));
  }

  lemma Follow(s: Flush, l: Limits, ev: FlushEvent, rest: seq<FlushEvent>)
    requires CanHappen(s, l, ev)
    ensures HappenAll(s, l, [ev] + rest) == HappenAll(Happen(s, l, ev), l, rest)
  {
    assert ([ev] + rest)[1..] == rest;
  }

  const DOUBLING: seq<FlushEvent> :=
    [DataArrives(1)] + ([BodyAttached] + ([FlusherEnqueues] + ([BodyRead] + ([FlusherEnqueues] + ([FlusherShifts(0)] + ([FlusherShifts(0)] + []))))))

  /** The state after the second enqueue: one byte, twice in the body. */
  ghost predicate Doubled(s: Flush, l: Limits) {
    && s.lengths == [1] && s.queue == [0] && s.body == [0, 0] && s.shifting == [0, 0]
    && s.pendingBytes == 1 && s.pendingDataBytes == 1 && s.doubled == 1 && s.clamped == 0 && s.here == 0
  }

  lemma SecondEnqueueDoubles(l: Limits) returns (t: Flush)
    requires IsTunnelLimits(l)
    ensures Doubled(t, l)
    ensures HappenAll(Start(l), l, DOUBLING) == HappenAll(t, l, [FlusherShifts(0)] + ([FlusherShifts(0)] + []))
  {
    var s0 := Start(l);
    var s1 := Happen(s0, l, DataArrives(1));
    var s2 := Happen(s1, l, BodyAttached);
    var s3 := Happen(s2, l, FlusherEnqueues);
    var s4 := Happen(s3, l, BodyRead);
    t := Happen(s4, l, FlusherEnqueues);
    var e5 := [FlusherShifts(0)] + ([FlusherShifts(0)] + []);
    var e4 := [FlusherEnqueues] + e5;
    var e3 := [BodyRead] + e4;
    var e2 := [FlusherEnqueues] + e3;
    var e1 := [BodyAttached] + e2;
    Follow(s0, l, DataArrives(1), e1);
    Follow(s1, l, BodyAttached, e2);
    Follow(s2, l, FlusherEnqueues, e3);
    Follow(s3, l, BodyRead, e4);
    Follow(s4, l, FlusherEnqueues, e5);
  }

  /** For all valid limits: a pull between enqueue and shift delivers a byte twice, grants its credit twice, takes
      its length off twice, and the clamp acts. */
  lemma PullDuplicates(l: Limits) returns (t: Flush)
    requires IsTunnelLimits(l)
    ensures HappenAll(Start(l), l, DOUBLING) == Some(t)
    ensures t.body == [0, 0] && t.pendingBytes == -1 && t.clamped == 1
    ensures t.window + t.streamCapped == l.streamCreditBytes + 1 && t.channel + t.channelCapped == l.channelCreditBytes + 1
  {
    var u := SecondEnqueueDoubles(l);
    var v := Happen(u, l, FlusherShifts(0));
    t := Happen(v, l, FlusherShifts(0));
    Follow(u, l, FlusherShifts(0), [FlusherShifts(0)] + []);
    Follow(v, l, FlusherShifts(0), []);
    LawFrom(Start(l), l, DOUBLING, t);
    assert t.body[0] == 0;
    assert WaitingBelow(t.lengths, t.body, 1) == WaitingBelow(t.lengths, t.body, 0) == 0;
  }
}
