/** Data channels are handed out in turn, and a stream keeps the one it was opened on. */
module RoundRobin {
  import opened Protocol
  import opened Frames
  import opened ServerSpec
  import opened ServerSafety
  import opened ServerRuns

  datatype Choice = Choice(channelId: nat, nextChannelIndex: nat)

  function ChooseNextDataChannel(nextChannelIndex: int, dataChannels: int): Result<Choice> {
    if !(0 <= nextChannelIndex <= MAX_SAFE_INTEGER) then Err("nextChannelIndex must be a non-negative safe integer")
    else if !IsValidDataChannelCount(dataChannels) then Err("invalid data channel count")
    else Ok(Choice(nextChannelIndex % dataChannels, nextChannelIndex + 1))
  }

  /** The channels of k consecutive choices. */
  function Choices(start: nat, k: nat, n: nat): Result<seq<nat>>
    decreases k
  {
    if k == 0 then Ok([])
    else
      match ChooseNextDataChannel(start, n)
      case Err(message) => Err(message)
      case Ok(first) =>
        match Choices(first.nextChannelIndex, k - 1, n)
        case Err(message) => Err(message)
        case Ok(rest) => Ok([first.channelId] + rest)
  }

  function Times(c: nat, chosen: seq<nat>): nat {
    if chosen == [] then 0 else (if chosen[0] == c then 1 else 0) + Times(c, chosen[1..])
  }

  /** How many of 0 .. m-1 leave remainder c. */
  function Hits(m: nat, n: nat, c: nat): nat
    requires c < n
  {
    (m + n - 1 - c) / n
  }

  lemma Euclid(m: nat, n: nat, q: nat, r: nat)
    requires n > 0 && m == q * n + r && r < n
    ensures m / n == q && m % n == r
  {
    var p := m / n;
    assert m == p * n + m % n;
    if p < q {
      MulLe(p + 1, q, n);
    } else if q < p {
      MulLe(q + 1, p, n);
    }
  }

  lemma MulLe(a: nat, b: nat, n: nat)
    requires a <= b
    ensures a * n <= b * n
  {
  }

  lemma HitsAt(m: nat, n: nat, c: nat, q: nat, r: nat)
    requires c < n && m == q * n + r && r < n
    ensures Hits(m, n, c) == q + if r > c then 1 else 0
  {
    assert (q + 1) * n == q * n + n;
    if r > c {
      Euclid(m + n - 1 - c, n, q + 1, r - 1 - c);
    } else {
      Euclid(m + n - 1 - c, n, q, r + n - 1 - c);
    }
  }

  lemma HitsStep(m: nat, n: nat, c: nat)
    requires c < n
    ensures Hits(m + 1, n, c) == Hits(m, n, c) + if m % n == c then 1 else 0
  {
    var q, r := m / n, m % n;
    assert m == q * n + r;
    HitsAt(m, n, c, q, r);
    if r + 1 < n {
      HitsAt(m + 1, n, c, q, r + 1);
    } else {
      assert (q + 1) * n == q * n + n;
      HitsAt(m + 1, n, c, q + 1, 0);
    }
  }

  lemma {:induction false} TimesIsHits(start: nat, k: nat, n: nat, c: nat)
    requires IsValidDataChannelCount(n) && start + k <= MAX_SAFE_INTEGER + 1 && c < n
    ensures Choices(start, k, n).Ok? && |Choices(start, k, n).value| == k
    ensures Times(c, Choices(start, k, n).value) + Hits(start, n, c) == Hits(start + k, n, c)
    decreases k
  {
    if k > 0 {
      TimesIsHits(start + 1, k - 1, n, c);
      HitsStep(start, n, c);
    }
  }

  lemma SumOfQuotients(q: nat, r: nat, p: nat, s: nat, n: nat)
    requires n > 0 && r < n && s < n
    ensures (q * n + r + (p * n + s)) / n == q + p + if r + s < n then 0 else 1
  {
    var x := q * n + r + (p * n + s);
    Distribute(q, p, n);
    if r + s < n {
      Euclid(x, n, q + p, r + s);
    } else {
      Euclid(x, n, q + p + 1, r + s - n);
    }
  }

  lemma Distribute(q: nat, p: nat, n: nat)
    ensures (q + p) * n == q * n + p * n && (q + p + 1) * n == q * n + p * n + n
  {
  }

  lemma DifferenceOfQuotients(x: nat, k: nat, n: nat)
    requires n > 0
    ensures (x + k) / n - x / n == k / n || ((x + k) / n - x / n == k / n + 1 && k % n != 0)
  {
    var q, r := x / n, x % n;
    var p, s := k / n, k % n;
    SumOfQuotients(q, r, p, s, n);
    assert x + k == q * n + r + (p * n + s);
  }

  /** Over any k consecutive choices whose indices stay safe integers, each of the n channels is chosen
      floor(k / n) or ceil(k / n) times. */
  lemma EveryChannelInTurn(start: nat, k: nat, n: nat, c: nat)
    requires IsValidDataChannelCount(n) && start + k <= MAX_SAFE_INTEGER + 1 && c < n
    ensures Choices(start, k, n).Ok? && |Choices(start, k, n).value| == k
    ensures var times := Times(c, Choices(start, k, n).value);
            times == k / n || (times == k / n + 1 && k % n != 0)
  {
    TimesIsHits(start, k, n, c);
    DifferenceOfQuotients(start + n - 1 - c, k, n);
  }

  /** The choice fails exactly past the safe integers or for an impossible channel count. */
  lemma ChoiceMatchesOpen(s: Server, l: Limits, hasBody: bool)
    requires IsValidDataChannelCount(s.dataChannels) && s.nextStreamId <= MAX_UINT64
    ensures Enabled(s, l, Open(hasBody)) <==> ChooseNextDataChannel(s.nextChannelIndex, s.dataChannels).Ok?
    ensures Enabled(s, l, Open(hasBody)) ==>
              var r := OpenStream(s, l, hasBody);
              ChooseNextDataChannel(s.nextChannelIndex, s.dataChannels) == Ok(Choice(r.channel, r.server.nextChannelIndex))
  {
  }

  // ----- in the server -----

  lemma {:induction false} FlushKeepsPumps(s: Server, i: nat)
    requires i in s.streams
    ensures FlushPending(s, i).server.pumps == s.pumps && FlushPending(s, i).server.dataChannels == s.dataChannels
    decreases QueueLength(s, i)
  {
    if CanFlush(s, i) && i in FlushHead(s, i).server.streams {
      FlushKeepsPumps(FlushHead(s, i).server, i);
    }
  }

  lemma DeliverKeepsPumps(s: Server, i: nat, payload: bytes)
    requires i in s.streams && Deliverable(s.streams[i])
    ensures DeliverFrame(s, i, payload).server.pumps == s.pumps && DeliverFrame(s, i, payload).server.dataChannels == s.dataChannels
  {
  }

  lemma EnqueueKeepsPumps(s: Server, l: Limits, i: nat, payload: bytes)
    requires i in s.streams
    ensures EnqueuePending(s, l, i, payload).pumps == s.pumps && EnqueuePending(s, l, i, payload).dataChannels == s.dataChannels
  {
  }

  lemma DataKeepsPumps(s: Server, l: Limits, i: nat, c: nat, seqNo: nat, flags: nat, payload: bytes)
    requires i in s.streams
    ensures ReceiveData(s, l, i, c, seqNo, flags, payload).server.pumps == s.pumps
    ensures ReceiveData(s, l, i, c, seqNo, flags, payload).server.dataChannels == s.dataChannels
  {
    var s' := AcceptData(s, i, c, |payload|);
    if Deliverable(s.streams[i]) {
      DeliverKeepsPumps(s', i, payload);
    } else {
      EnqueueKeepsPumps(s', l, i, payload);
    }
  }

  lemma DispatchKeepsPumps(s: Server, l: Limits, c: nat, f: Frame, r: Reply)
    requires !f.ChannelCredit? && f.streamId in s.streams && r == DispatchStreamFrame(s, l, c, f)
    ensures r.server.pumps == s.pumps && r.server.dataChannels == s.dataChannels
  {
    var i := f.streamId;
    if f.ResponseStart? {
      FlushKeepsPumps(MarkStarted(s, i), i);
    } else if f.ResponseData? {
      DataKeepsPumps(s, l, i, c, f.seqNo, f.flags, f.payload);
    } else if f.ResponseEnd? {
      assert ReceiveEnd(s, i, c, f.kind, f.lastSeq).server.pumps == s.pumps;
    }
  }

  lemma ReceiveKeepsPumps(s: Server, l: Limits, c: nat, f: Frame, r: Reply)
    requires r == Receive(s, l, c, f)
    ensures r.server.pumps == s.pumps && r.server.dataChannels == s.dataChannels
  {
    if IsResponse(f) && f.streamId in s.streams && s.streams[f.streamId].channel == c {
      DispatchKeepsPumps(s, l, c, f, DispatchStreamFrame(s, l, c, f));
    }
  }

  lemma StepKeepsHomes(s: Server, l: Limits, ev: ServerEvent)
    requires Enabled(s, l, ev) && !ev.Open?
    ensures var s' := Step(s, l, ev).server;
            && s'.dataChannels == s.dataChannels && s'.pumps.Keys == s.pumps.Keys
            && forall i :: i in s.pumps ==> s'.pumps[i].channel == s.pumps[i].channel
  {
    if ev.ReceiveUp? {
      ReceiveKeepsPumps(s, l, ev.c, ev.frame, Receive(s, l, ev.c, ev.frame));
    } else if ev.AttachBody? {
      FlushKeepsPumps(WithRoom(s, ev.i, 1), ev.i);
    } else if ev.PublicRead? {
      PullKeepsPumps(s, ev.i, s.streams[ev.i].room.value);
    } else {
      OwnKeepsHomes(s, l, ev);
    }
  }

  lemma PullKeepsPumps(s: Server, i: nat, room: nat)
    requires i in s.streams
    ensures PullBody(s, i, room).server.pumps == s.pumps && PullBody(s, i, room).server.dataChannels == s.dataChannels
  {
    FlushKeepsPumps(WithRoom(s, i, room + 1), i);
  }

  lemma OwnKeepsHomes(s: Server, l: Limits, ev: ServerEvent)
    requires Enabled(s, l, ev) && !ev.Open? && !ev.ReceiveUp? && !ev.AttachBody? && !ev.PublicRead?
    ensures var s' := Step(s, l, ev).server;
            && s'.dataChannels == s.dataChannels && s'.pumps.Keys == s.pumps.Keys
            && forall i :: i in s.pumps ==> s'.pumps[i].channel == s.pumps[i].channel
  {
  }

  ghost predicate InTurn(s: Server) {
    s.dataChannels > 0 && forall i :: i in s.pumps ==> i >= 1 && s.pumps[i].channel == (i - 1) % s.dataChannels
  }

  lemma StepKeepsTurn(s: Server, l: Limits, ev: ServerEvent)
    requires Enabled(s, l, ev) && IdsSafe(s) && InTurn(s)
    ensures InTurn(Step(s, l, ev).server) && Step(s, l, ev).server.dataChannels == s.dataChannels
  {
    if ev.Open? {
      var t := OpenStream(s, l, ev.hasBody).server;
      assert forall i :: i in t.pumps && i != s.nextStreamId ==> i in s.pumps && t.pumps[i] == s.pumps[i];
      assert t.pumps[s.nextStreamId].channel == (s.nextStreamId - 1) % s.dataChannels;
    } else {
      StepKeepsHomes(s, l, ev);
    }
  }

  lemma {:induction false} PumpsInTurn(channels: nat, l: Limits, evs: seq<ServerEvent>, t: Server)
    requires ServerReached(channels, l, evs, t)
    ensures t.dataChannels == channels && InTurn(t)
    decreases |evs|
  {
    if evs != [] {
      var n := |evs| - 1;
      var s := ServerAfter(Init(channels, l), l, evs[..n]).value;
      PumpsInTurn(channels, l, evs[..n], s);
      ServerReachedSafe(channels, l, evs[..n], s);
      StepKeepsTurn(s, l, evs[n]);
    }
  }

  /** In every run, stream i lives on channel (i - 1) mod n from its opening on, whatever the client sends. */
  lemma StreamKeepsItsTurn(channels: nat, l: Limits, evs: seq<ServerEvent>, t: Server, i: nat)
    requires ServerReached(channels, l, evs, t) && i in t.streams
    ensures channels > 0 && i >= 1 && t.streams[i].channel == (i - 1) % channels
  {
    PumpsInTurn(channels, l, evs, t);
    ServerReachedSafe(channels, l, evs, t);
    assert LiveSafe(PartOf(t, i), l, t.dataChannels);
  }
}
