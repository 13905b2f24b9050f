/** What the active connection's own sockets, the alarm and a replacement come to, said without the functions
    that do it. */
module LinkOutcomes {
  import opened Protocol
  import opened ServerSpec
  import opened ServerSafety
  import opened RoundRobin
  import opened Replacement
  import opened Orphans

  /** s is what some run over any connections comes to. */
  ghost predicate LinkReached(l: Limits, evs: seq<LinkEvent>, s: Link) {
    IsTunnelLimits(l) && LinkRun(NEW_TUNNEL, l, evs) == Some(s)
  }

  lemma {:induction false} RunInv(s: Link, l: Limits, evs: seq<LinkEvent>)
    requires LinkInv(s) && LinkRun(s, l, evs).Some?
    ensures LinkInv(LinkRun(s, l, evs).value)
    decreases |evs|
  {
    if evs != [] {
      StepInv(s, l, evs[0]);
      RunInv(LinkStep(s, l, evs[0]), l, evs[1..]);
    }
  }

  lemma ReachedSafeInv(l: Limits, evs: seq<LinkEvent>, s: Link)
    requires LinkReached(l, evs, s)
    ensures LinkSafe(s, l) && LinkInv(s)
  {
    LinkRunSafe(NEW_TUNNEL, l, evs);
    RunInv(NEW_TUNNEL, l, evs);
  }

  /** Nothing of the active connection of s is left in t, and no other socket was touched. */
  ghost predicate ConnectionGone(s: Link, t: Link) {
    && t.active == None
    && t.server.streams == map[] && t.server.pendingDataBytes == 0 && t.server.dataChannels == 0
    && t.server.credit.outStream == t.server.credit.inStream == map[]
    && t.server.credit.outChannel == t.server.credit.inChannel == map[]
    && (forall k :: Owns(s, k) ==> k in t.sockets && !t.sockets[k].open)
    && (forall k :: k in s.sockets && !Owns(s, k) ==> k in t.sockets && t.sockets[k] == s.sockets[k])
  }

  /** At most socket k was closed. */
  ghost predicate OnlyShuts(s: Link, t: Link, k: nat) {
    && t.active == s.active && t.server == s.server && t.orphans == s.orphans && t.strays == s.strays
    && k in t.sockets && !t.sockets[k].open
    && t.sockets.Keys == s.sockets.Keys && forall j :: j in s.sockets && j != k ==> t.sockets[j] == s.sockets[j]
  }

  lemma FailIsGone(s: Link)
    requires s.active.Some? && Countable(s.server)
    ensures ConnectionGone(s, Fail(s))
  {
    AbortLeavesNothing(s.server);
  }

  lemma SafeCountable(s: Link, l: Limits)
    requires s.active.Some? && LinkSafe(s, l)
    ensures Countable(s.server)
  {
  }

  predicate LosesSocket(ev: LinkEvent, k: nat) {
    ev == Closed(k) || ev == Errored(k) || ev == Received(k, Text) || ev == Received(k, Garbage)
  }

  lemma LossFails(s: Link, l: Limits, k: nat, ev: LinkEvent)
    requires Owns(s, k) && LosesSocket(ev, k)
    ensures LinkCan(s, l, ev)
    ensures LinkStep(s, l, ev) == if IsCurrent(s, k) then Fail(s) else Shut(s, k)
  {
  }

  /** In every run: when an own socket closes, errs, or carries text or garbage, the connection is gone if and only
      if that socket is its channel's current one, and then nothing of it is left; otherwise only that socket is. */
  lemma SocketLossOutcome(l: Limits, evs: seq<LinkEvent>, s: Link, k: nat, ev: LinkEvent)
    requires LinkReached(l, evs, s) && Owns(s, k) && LosesSocket(ev, k)
    ensures LinkCan(s, l, ev)
    ensures var t := LinkStep(s, l, ev);
            && (t.active.None? <==> IsCurrent(s, k))
            && (if IsCurrent(s, k) then ConnectionGone(s, t) else OnlyShuts(s, t, k))
  {
    ReachedSafeInv(l, evs, s);
    SafeCountable(s, l);
    LossFails(s, l, k, ev);
    if IsCurrent(s, k) {
      FailIsGone(s);
    }
  }

  /** A decoded frame reaches the server if and only if it came from the channel's current socket; an error of the
      server then ends the connection, and nothing else does. */
  lemma FrameOutcome(l: Limits, evs: seq<LinkEvent>, s: Link, k: nat, f: Frame)
    requires LinkReached(l, evs, s) && Owns(s, k)
    ensures var t := LinkStep(s, l, Received(k, Decoded(f))); var r := Receive(s.server, l, s.sockets[k].channel, f);
            if !IsCurrent(s, k) then OnlyShuts(s, t, k)
            else if r.error.Some? then ConnectionGone(s, t)
            else t.active == s.active && t.server == r.server && t.sockets == s.sockets
  {
    ReachedSafeInv(l, evs, s);
    var r := Receive(s.server, l, s.sockets[k].channel, f);
    if IsCurrent(s, k) && r.error.Some? {
      ReceiveSafe(s.server, l, s.sockets[k].channel, f);
      var u := s.(server := r.server);
      FailIsGone(u);
      assert forall j :: Owns(u, j) <==> Owns(s, j);
    }
  }

  /** The connect alarm ends the active connection if and only if some channel has no open socket yet. */
  lemma AlarmOutcome(l: Limits, evs: seq<LinkEvent>, s: Link)
    requires LinkReached(l, evs, s)
    ensures var t := LinkStep(s, l, Alarm);
            if s.active.Some? && exists c: nat :: c < s.server.dataChannels && !HasDataSocket(s, c) then ConnectionGone(s, t) else t == s
  {
    ReachedSafeInv(l, evs, s);
    if s.active.Some? {
      SafeCountable(s, l);
      ReadyExactly(l, evs, s);
      FailIsGone(s);
    }
  }

  // ----- channels -----

  ghost predicate OwnInRange(s: Link) {
    && (forall k :: Owns(s, k) ==> s.sockets[k].channel < s.server.dataChannels)
    && (s.active.Some? ==> s.server.dataChannels >= 1)
  }

  lemma PublicKeepsChannels(s: Server, l: Limits, ev: ServerEvent)
    requires Enabled(s, l, ev) && !ev.ReceiveUp?
    ensures Step(s, l, ev).server.dataChannels == s.dataChannels
  {
    if !ev.Open? {
      StepKeepsHomes(s, l, ev);
    }
  }

  lemma TakeInRange(s: Link, l: Limits, k: nat, incoming: Incoming)
    requires OwnInRange(s) && k in s.sockets
    ensures OwnInRange(Take(s, l, k, incoming))
  {
    if incoming.Decoded? {
      var f := incoming.frame;
      ReceiveKeepsPumps(s.server, l, s.sockets[k].channel, f, Receive(s.server, l, s.sockets[k].channel, f));
    }
  }

  lemma StepInRange(s: Link, l: Limits, ev: LinkEvent)
    requires OwnInRange(s) && LinkInv(s) && LinkCan(s, l, ev)
    ensures OwnInRange(LinkStep(s, l, ev))
  {
    if ev.Received? {
      TakeInRange(s, l, ev.ticket, ev.incoming);
    } else if ev.Public? {
      PublicKeepsChannels(s.server, l, ev.ev);
    } else if ev.Replace? {
      NoneOwned(s, l, ev.conn, ev.channels);
    }
  }

  lemma {:induction false} RunInRange(s: Link, l: Limits, evs: seq<LinkEvent>)
    requires OwnInRange(s) && LinkInv(s) && LinkRun(s, l, evs).Some?
    ensures OwnInRange(LinkRun(s, l, evs).value)
    decreases |evs|
  {
    if evs != [] {
      StepInv(s, l, evs[0]);
      StepInRange(s, l, evs[0]);
      RunInRange(LinkStep(s, l, evs[0]), l, evs[1..]);
    }
  }

  /** In every run the tunnel is ready if and only if a connection is active and every one of its channels has an
      open socket of that connection. */
  lemma ReadyExactly(l: Limits, evs: seq<LinkEvent>, s: Link)
    requires LinkReached(l, evs, s)
    ensures IsReady(s) <==> s.active.Some? && forall c: nat :: c < s.server.dataChannels ==> HasDataSocket(s, c)
  {
    RunInRange(NEW_TUNNEL, l, evs);
  }

  // ----- sockets -----

  /** The newest of the own sockets of channel c below ticket n. */
  lemma {:induction false} NewestBelow(s: Link, c: nat, n: nat) returns (j: nat)
    requires exists k: nat :: k < n && Owns(s, k) && s.sockets[k].channel == c
    ensures Owns(s, j) && s.sockets[j].channel == c
    ensures forall k: nat :: k < n && Owns(s, k) && s.sockets[k].channel == c ==>
              s.sockets[k].generation < s.sockets[j].generation
              || (s.sockets[k].generation == s.sockets[j].generation && k <= j)
    decreases n
  {
    var last := n - 1;
    if exists k: nat :: k < last && Owns(s, k) && s.sockets[k].channel == c {
      j := NewestBelow(s, c, last);
      if Owns(s, last) && s.sockets[last].channel == c && s.sockets[last].generation >= s.sockets[j].generation {
        j := last;
      }
    } else {
      j := last;
    }
  }

  lemma CurrentIsUnique(s: Link, j: nat, k: nat)
    requires IsCurrent(s, j) && IsCurrent(s, k) && s.sockets[j].channel == s.sockets[k].channel
    ensures j == k
  {
  }

  /** In every run, a channel that has a socket of the active connection has exactly one current socket. */
  lemma OneCurrentSocket(l: Limits, evs: seq<LinkEvent>, s: Link, k: nat) returns (j: nat)
    requires LinkReached(l, evs, s) && Owns(s, k)
    ensures IsCurrent(s, j) && s.sockets[j].channel == s.sockets[k].channel
    ensures forall i :: IsCurrent(s, i) && s.sockets[i].channel == s.sockets[k].channel ==> i == j
  {
    ReachedSafeInv(l, evs, s);
    j := NewestBelow(s, s.sockets[k].channel, s.nextTicket);
    forall i | IsCurrent(s, i) && s.sockets[i].channel == s.sockets[k].channel ensures i == j {
      CurrentIsUnique(s, i, j);
    }
  }

  /** A connecting data socket is accepted if and only if it names the active connection and one of its channels.
      Then it is open, the earlier ones of its channel are closed, no other socket changes, and it is current if
      and only if no earlier one of its channel has a greater generation. */
  lemma ConnectOutcome(l: Limits, evs: seq<LinkEvent>, s: Link, k: nat, conn: nat, channel: nat, generation: nat)
    requires LinkReached(l, evs, s) && k >= s.nextTicket
    ensures var t := LinkStep(s, l, Connected(k, conn, channel, generation));
            && t.active == s.active && t.server == s.server
            && if s.active == Some(conn) && channel < s.server.dataChannels then
                 && Owns(t, k) && t.sockets[k] == Socket(conn, channel, generation, true)
                 && (forall j :: j in s.sockets ==>
                       j in t.sockets && t.sockets[j] == if Owns(s, j) && s.sockets[j].channel == channel
                                                         then s.sockets[j].(open := false) else s.sockets[j])
                 && (IsCurrent(t, k) <==>
                       forall j :: j in s.sockets && Owns(s, j) && s.sockets[j].channel == channel ==> s.sockets[j].generation <= generation)
               else t == s
  {
    ReachedSafeInv(l, evs, s);
    var t := LinkStep(s, l, Connected(k, conn, channel, generation));
    if s.active == Some(conn) && channel < s.server.dataChannels {
      assert forall j :: j != k ==> (Owns(t, j) <==> Owns(s, j));
    }
  }

  /** A replacement closes every socket of the connection it replaces and owns none yet. */
  lemma ReplaceOutcome(l: Limits, evs: seq<LinkEvent>, s: Link, conn: nat, channels: nat)
    requires LinkReached(l, evs, s) && LinkCan(s, l, Replace(conn, channels))
    ensures var t := LinkStep(s, l, Replace(conn, channels));
            && t.active == Some(conn) && t.server == Init(channels, l) && t.strays == []
            && (forall k :: Owns(s, k) ==> k in t.sockets && !t.sockets[k].open)
            && (forall k :: k in s.sockets && !Owns(s, k) ==> k in t.sockets && t.sockets[k] == s.sockets[k])
            && forall k :: !Owns(t, k)
  {
    ReachedSafeInv(l, evs, s);
    ReplacementStartsAfresh(l, evs, s, conn, channels);
    NoneOwned(s, l, conn, channels);
  }
}
