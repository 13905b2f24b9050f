/** What the pump of a replaced connection does to the client of the next one: its REQUEST_END carries a
    stream id of the old connection, and the new connection issues the same ids again. */
module Orphans {
  import opened Protocol
  import opened ServerSpec
  import opened ClientSpec
  import opened System
  import opened Replacement
  import opened Counterexamples

  /** When a stray REQUEST_END does not fail the client's connection, when it does not even change its streams
      and writers, and when it aborts its stream because the writer was closed already. */
  lemma StrayEndExactly(cl: Client, l: Limits, c: nat, i: nat, lastSeq: int)
    ensures var r := ReceiveFrame(cl, l, c, RequestEnd(i, RequestBody, lastSeq));
            && (r.error == None <==>
                  i in cl.closed || (i in cl.streams && cl.streams[i].channel == c && lastSeq == cl.streams[i].recvNext - 1))
            && (r.error == None && r.client.streams == cl.streams && r.client.closedWriters == cl.closedWriters <==>
                  i in cl.closed
                  || (i in cl.streams && cl.streams[i].channel == c && lastSeq == cl.streams[i].recvNext - 1
                      && cl.streams[i].endSeq == Some(lastSeq) && !cl.streams[i].hasBody))
            && (r.out == [ResponseAbort(i)] && i in cl.streams && i !in r.client.streams <==>
                  TakesEnd(cl, c, i, lastSeq) && cl.streams[i].hasBody && i in cl.closedWriters)
  {
    if TakesEnd(cl, c, i, lastSeq) {
      var st := cl.streams[i];
      assert st.(endSeq := Some(lastSeq)) == st <==> st.endSeq == Some(lastSeq);
      assert EndRequest(cl, i, lastSeq).streams[i] == st.(endSeq := Some(lastSeq));
      assert i in cl.closedWriters + {i};
    }
  }

  predicate TakesEnd(cl: Client, c: nat, i: nat, lastSeq: int) {
    i !in cl.closed && i in cl.streams && cl.streams[i].channel == c && lastSeq == cl.streams[i].recvNext - 1
  }

  /** A client that knows no stream yet gives up its connection over any stray REQUEST_END. */
  lemma FreshClientFails(channels: nat, l: Limits, c: nat, i: nat, lastSeq: int)
    ensures ReceiveFrame(InitClient(channels, l), l, c, RequestEnd(i, RequestBody, lastSeq)).error == Some(UnknownStream)
  {
  }

  // ----- where stray frames come from -----

  lemma {:induction false} LinkRunSnoc(s: Link, l: Limits, evs: seq<LinkEvent>, ev: LinkEvent)
    requires LinkRun(s, l, evs).Some?
    ensures var t := LinkRun(s, l, evs).value;
            LinkRun(s, l, evs + [ev]) == if LinkCan(t, l, ev) then Some(LinkStep(t, l, ev)) else None
    decreases |evs|
  {
    if evs == [] {
      assert [] + [ev] == [ev] && [ev][1..] == [];
    } else {
      assert (evs + [ev])[1..] == evs[1..] + [ev];
      LinkRunSnoc(LinkStep(s, l, evs[0]), l, evs[1..], ev);
    }
  }

  /** p was the running pump of o's stream when the connection of o's era was replaced, at event n of the run. */
  ghost predicate ReplacedAt(l: Limits, evs: seq<LinkEvent>, n: nat, o: Orphan, p: Pump) {
    && n < |evs| && evs[n].Replace? && LinkRun(NEW_TUNNEL, l, evs[..n]).Some?
    && var u := LinkRun(NEW_TUNNEL, l, evs[..n]).value;
       u.era == o.era && o.stream in u.server.pumps && u.server.pumps[o.stream] == p && p.status == Active
  }

  ghost predicate Survived(l: Limits, evs: seq<LinkEvent>, o: Orphan, p: Pump) {
    exists n: nat :: ReplacedAt(l, evs, n, o, p)
  }

  lemma SurvivedStill(l: Limits, evs: seq<LinkEvent>, ev: LinkEvent, o: Orphan, p: Pump)
    requires Survived(l, evs, o, p)
    ensures Survived(l, evs + [ev], o, p)
  {
    var n: nat :| ReplacedAt(l, evs, n, o, p);
    assert (evs + [ev])[..n] == evs[..n];
    assert ReplacedAt(l, evs + [ev], n, o, p);
  }

  lemma SurvivesNow(l: Limits, evs: seq<LinkEvent>, ev: LinkEvent, s: Link, i: nat)
    requires LinkRun(NEW_TUNNEL, l, evs) == Some(s) && ev.Replace? && i in s.server.pumps && s.server.pumps[i].status == Active
    ensures Survived(l, evs + [ev], Orphan(s.era, i), s.server.pumps[i])
  {
    assert (evs + [ev])[..|evs|] == evs;
    assert ReplacedAt(l, evs + [ev], |evs|, Orphan(s.era, i), s.server.pumps[i]);
  }

  /** stray is the end of the body of its origin, with that pump's channel and last number. */
  ghost predicate EndOf(l: Limits, evs: seq<LinkEvent>, stray: Stray) {
    exists p: Pump :: Survived(l, evs, stray.origin, p) && stray.channel == p.channel
                   && stray.frame == RequestEnd(stray.origin.stream, RequestBody, p.sendNext - 1)
  }

  /** Pumps left over and stray frames are accounted for, and a pump that ended is gone. */
  ghost predicate StraysTraced(l: Limits, evs: seq<LinkEvent>, s: Link) {
    && (forall o :: o in s.orphans ==> o.era < s.era && Survived(l, evs, o, s.orphans[o]))
    && (forall k :: 0 <= k < |s.strays| ==>
          s.strays[k].origin.era < s.era && s.strays[k].origin !in s.orphans && EndOf(l, evs, s.strays[k]))
    && forall j, k :: 0 <= j < k < |s.strays| ==> s.strays[j].origin != s.strays[k].origin
  }

  lemma SameTraced(l: Limits, evs: seq<LinkEvent>, ev: LinkEvent, s: Link, t: Link)
    requires StraysTraced(l, evs, s) && t.era == s.era && t.strays == s.strays
    requires forall o :: o in t.orphans ==> o in s.orphans && t.orphans[o] == s.orphans[o]
    ensures StraysTraced(l, evs + [ev], t)
  {
    forall o | o in t.orphans ensures Survived(l, evs + [ev], o, t.orphans[o]) {
      SurvivedStill(l, evs, ev, o, t.orphans[o]);
    }
    forall k | 0 <= k < |t.strays| ensures EndOf(l, evs + [ev], t.strays[k]) {
      EndStill(l, evs, ev, t.strays[k]);
    }
  }

  lemma EndStill(l: Limits, evs: seq<LinkEvent>, ev: LinkEvent, stray: Stray)
    requires EndOf(l, evs, stray)
    ensures EndOf(l, evs + [ev], stray)
  {
    var p: Pump :| Survived(l, evs, stray.origin, p) && stray.channel == p.channel
                   && stray.frame == RequestEnd(stray.origin.stream, RequestBody, p.sendNext - 1);
    SurvivedStill(l, evs, ev, stray.origin, p);
  }

  lemma ReplaceTraced(l: Limits, evs: seq<LinkEvent>, ev: LinkEvent, s: Link)
    requires LinkRun(NEW_TUNNEL, l, evs) == Some(s) && StraysTraced(l, evs, s) && ev.Replace? && LinkCan(s, l, ev)
    ensures StraysTraced(l, evs + [ev], LinkStep(s, l, ev))
  {
    var t := LinkStep(s, l, ev);
    forall o | o in t.orphans ensures o.era < t.era && Survived(l, evs + [ev], o, t.orphans[o]) {
      if o in Surviving(s.server.pumps, s.era) {
        SurvivesNow(l, evs, ev, s, o.stream);
      } else {
        SurvivedStill(l, evs, ev, o, s.orphans[o]);
      }
    }
  }

  lemma EndEffect(s: Link, l: Limits, o: Orphan, t: Link)
    requires LinkCan(s, l, OrphanEnds(o)) && t == LinkStep(s, l, OrphanEnds(o))
    ensures var p := s.orphans[o];
            && t == s.(orphans := s.orphans - {o}, strays := t.strays)
            && (t.strays == s.strays || t.strays == s.strays + [Stray(o, p.channel, RequestEnd(o.stream, RequestBody, p.sendNext - 1))])
  {
  }

  /** One more stray, whose pump has just ended. */
  lemma MoreTraced(l: Limits, evs: seq<LinkEvent>, u: Link, t: Link, stray: Stray)
    requires StraysTraced(l, evs, u) && t == u.(strays := u.strays + [stray])
    requires EndOf(l, evs, stray) && stray.origin.era < u.era && stray.origin !in u.orphans
    requires forall k :: 0 <= k < |u.strays| ==> u.strays[k].origin != stray.origin
    ensures StraysTraced(l, evs, t)
  {
  }

  lemma EndTraced(l: Limits, evs: seq<LinkEvent>, ev: LinkEvent, s: Link, o: Orphan, t: Link)
    requires StraysTraced(l, evs, s) && o in s.orphans && t == s.(orphans := s.orphans - {o}, strays := t.strays)
    requires var p := s.orphans[o];
             t.strays == s.strays || t.strays == s.strays + [Stray(o, p.channel, RequestEnd(o.stream, RequestBody, p.sendNext - 1))]
    ensures StraysTraced(l, evs + [ev], t)
  {
    var u := s.(orphans := s.orphans - {o});
    SameTraced(l, evs, ev, s, u);
    if t.strays != s.strays {
      SurvivedStill(l, evs, ev, o, s.orphans[o]);
      MoreTraced(l, evs + [ev], u, t, t.strays[|s.strays|]);
    }
  }

  /** Every other event leaves what is left over and what has strayed. */
  lemma OtherEffect(s: Link, l: Limits, ev: LinkEvent, t: Link)
    requires LinkCan(s, l, ev) && t == LinkStep(s, l, ev) && !ev.Replace? && !ev.OrphanEnds?
    ensures t.era == s.era && t.strays == s.strays
    ensures forall o :: o in t.orphans ==> o in s.orphans && t.orphans[o] == s.orphans[o]
  {
  }

  lemma OtherTraced(l: Limits, evs: seq<LinkEvent>, ev: LinkEvent, s: Link, t: Link)
    requires StraysTraced(l, evs, s) && LinkCan(s, l, ev) && t == LinkStep(s, l, ev) && !ev.Replace? && !ev.OrphanEnds?
    ensures StraysTraced(l, evs + [ev], t)
  {
    OtherEffect(s, l, ev, t);
    SameTraced(l, evs, ev, s, t);
  }

  lemma OrphanEndsTraced(l: Limits, evs: seq<LinkEvent>, o: Orphan, s: Link, t: Link)
    requires StraysTraced(l, evs, s) && LinkCan(s, l, OrphanEnds(o)) && t == LinkStep(s, l, OrphanEnds(o))
    ensures StraysTraced(l, evs + [OrphanEnds(o)], t)
  {
    EndEffect(s, l, o, t);
    EndTraced(l, evs, OrphanEnds(o), s, o, t);
  }

  lemma StepTraced(l: Limits, evs: seq<LinkEvent>, ev: LinkEvent, s: Link, t: Link)
    requires LinkRun(NEW_TUNNEL, l, evs) == Some(s) && StraysTraced(l, evs, s) && LinkCan(s, l, ev) && t == LinkStep(s, l, ev)
    ensures StraysTraced(l, evs + [ev], t)
  {
    if ev.Replace? {
      ReplaceTraced(l, evs, ev, s);
    } else if ev.OrphanEnds? {
      OrphanEndsTraced(l, evs, ev.orphan, s, t);
    } else {
      OtherTraced(l, evs, ev, s, t);
    }
  }

  lemma {:induction false} RunTraced(l: Limits, evs: seq<LinkEvent>, s: Link)
    requires LinkRun(NEW_TUNNEL, l, evs) == Some(s)
    ensures StraysTraced(l, evs, s)
    decreases |evs|
  {
    if evs != [] {
      var n := |evs| - 1;
      assert evs == evs[..n] + [evs[n]];
      PrefixRuns(NEW_TUNNEL, l, evs[..n], evs[n]);
      LinkRunSnoc(NEW_TUNNEL, l, evs[..n], evs[n]);
      var u := LinkRun(NEW_TUNNEL, l, evs[..n]).value;
      RunTraced(l, evs[..n], u);
      StepTraced(l, evs[..n], evs[n], u, s);
    }
  }

  lemma {:induction false} PrefixRuns(s: Link, l: Limits, evs: seq<LinkEvent>, ev: LinkEvent)
    requires LinkRun(s, l, evs + [ev]).Some?
    ensures LinkRun(s, l, evs).Some?
    decreases |evs|
  {
    if evs != [] {
      assert (evs + [ev])[1..] == evs[1..] + [ev];
      PrefixRuns(LinkStep(s, l, evs[0]), l, evs[1..], ev);
    }
  }

  /** In every run over any connections: each stray frame on the active connection is the REQUEST_END of a pump
      that was running when an earlier connection was replaced, on that pump's channel and with its last number;
      no pump ends twice, and none that is still left over has ended. */
  lemma StraysComeFromSurvivors(l: Limits, evs: seq<LinkEvent>, s: Link)
    requires LinkRun(NEW_TUNNEL, l, evs) == Some(s)
    ensures forall k :: 0 <= k < |s.strays| ==>
              EndOf(l, evs, s.strays[k]) && s.strays[k].origin.era < s.era && s.strays[k].origin !in s.orphans
    ensures forall j, k :: 0 <= j < k < |s.strays| ==> s.strays[j].origin != s.strays[k].origin
    ensures forall o :: o in s.orphans ==> o.era < s.era && Survived(l, evs, o, s.orphans[o])
  {
    RunTraced(l, evs, s);
  }

  // ----- a run that gets there -----

  lemma RunsOn(s: Link, l: Limits, ev: LinkEvent, rest: seq<LinkEvent>)
    requires LinkCan(s, l, ev)
    ensures LinkRun(s, l, [ev] + rest) == LinkRun(LinkStep(s, l, ev), l, rest)
  {
    assert ([ev] + rest)[1..] == rest;
  }

  const ORPHANING: seq<LinkEvent> :=
    [Replace(1, 1)] + ([Connected(0, 1, 0, 0)] + ([Public(ServerEvent.Open(true))] + ([Replace(2, 1)]
    + ([Connected(1, 2, 0, 0)] + ([OrphanEnds(Orphan(1, 1))] + [])))))

  /** A connection of one channel, ready. */
  ghost predicate OneChannel(s: Link, l: Limits, conn: nat, k: nat) {
    && s.active == Some(conn) && s.server == Init(1, l) && s.nextTicket == k + 1
    && k in s.sockets && s.sockets[k] == Socket(conn, 0, 0, true)
    && forall j :: Owns(s, j) ==> j == k
  }

  lemma OneChannelReady(s: Link, l: Limits, conn: nat, k: nat)
    requires OneChannel(s, l, conn, k)
    ensures HasDataSocket(s, 0) && IsReady(s)
  {
    assert Owns(s, k);
  }

  lemma ConnectOne(s: Link, l: Limits, conn: nat, k: nat)
    requires s.active == Some(conn) && s.server == Init(1, l) && k >= s.nextTicket && forall j :: !Owns(s, j)
    ensures LinkCan(s, l, Connected(k, conn, 0, 0))
    ensures var t := LinkStep(s, l, Connected(k, conn, 0, 0));
            OneChannel(t, l, conn, k) && t.orphans == s.orphans && t.era == s.era && t.strays == s.strays && t.seen == s.seen
  {
    var t := LinkStep(s, l, Connected(k, conn, 0, 0));
    assert forall j :: j != k ==> (Owns(t, j) <==> Owns(s, j));
  }

  lemma OpenOne(s: Link, l: Limits)
    requires OneChannel(s, l, 1, 0)
    ensures LinkCan(s, l, Public(ServerEvent.Open(true)))
    ensures var u := LinkStep(s, l, Public(ServerEvent.Open(true)));
            u == s.(server := u.server) && u.server.pumps == map[1 := Pump(0, true, 0, [], None, Active)]
  {
    OneChannelReady(s, l, 1, 0);
  }

  /** t follows u by a replacement; its server is fresh and owns no socket yet. */
  ghost predicate Follows(u: Link, l: Limits, conn: nat, t: Link) {
    && t.server == Init(1, l) && t.active == Some(conn) && t.nextTicket == u.nextTicket && t.strays == []
    && t.era == u.era + 1 && t.seen == u.seen + {conn} && t.orphans == u.orphans + Surviving(u.server.pumps, u.era)
    && forall j :: !Owns(t, j)
  }

  lemma ReplacedFollows(u: Link, l: Limits, conn: nat, t: Link)
    requires LinkInv(u) && conn !in u.seen && t == Replaced(u, l, conn, 1) && t.server == Init(1, l)
    ensures Follows(u, l, conn, t)
  {
    NoneOwned(u, l, conn, 1);
  }

  lemma ReplaceEffect(u: Link, l: Limits, conn: nat) returns (t: Link)
    requires LinkInv(u) && LinkSafe(u, l) && conn !in u.seen
    ensures LinkCan(u, l, Replace(conn, 1)) && LinkStep(u, l, Replace(conn, 1)) == t && Follows(u, l, conn, t)
  {
    t := Replaced(u, l, conn, 1);
    ReplacedIsFresh(u, l, conn, 1);
    ReplacedFollows(u, l, conn, t);
  }

  lemma SurvivingFew(p: Pump, era: nat)
    requires p.status == Active
    ensures map[] + Surviving(map[1 := p], era) == map[Orphan(era, 1) := p]
  {
    assert Orphan(era, 1) in Surviving(map[1 := p], era);
  }

  lemma NoneSurvive(pumps: map<nat, Pump>, orphans: map<Orphan, Pump>, era: nat)
    requires pumps == map[] && orphans == map[]
    ensures orphans + Surviving(pumps, era) == map[]
  {
    assert Surviving(pumps, era).Keys == {};
  }

  lemma OrphanEndsOne(s: Link, l: Limits)
    requires OneChannel(s, l, 2, 1) && s.strays == [] && s.orphans == map[Orphan(1, 1) := Pump(0, true, 0, [], None, Active)]
    ensures LinkCan(s, l, OrphanEnds(Orphan(1, 1)))
    ensures var t := LinkStep(s, l, OrphanEnds(Orphan(1, 1)));
            t.active == Some(2) && t.server == Init(1, l) && t.strays == [Stray(Orphan(1, 1), 0, RequestEnd(1, RequestBody, -1))]
  {
    OneChannelReady(s, l, 2, 1);
  }

  lemma FirstConnection(l: Limits, u: Link, s1: Link) returns (s2: Link)
    requires Follows(u, l, 1, s1) && u.server.pumps == map[] && u.orphans == map[] && u.nextTicket == 0
    ensures LinkCan(s1, l, Connected(0, 1, 0, 0)) && s2 == LinkStep(s1, l, Connected(0, 1, 0, 0))
    ensures OneChannel(s2, l, 1, 0) && s2.orphans == map[] && s2.era == u.era + 1 && s2.seen == u.seen + {1}
  {
    NoneSurvive(u.server.pumps, u.orphans, u.era);
    ConnectOne(s1, l, 1, 0);
    s2 := LinkStep(s1, l, Connected(0, 1, 0, 0));
  }

  lemma StepKeepsBoth(s: Link, l: Limits, ev: LinkEvent, t: Link)
    requires LinkInv(s) && LinkSafe(s, l) && IsTunnelLimits(l) && LinkCan(s, l, ev) && t == LinkStep(s, l, ev)
    ensures LinkInv(t) && LinkSafe(t, l)
  {
    StepInv(s, l, ev);
    LinkStepSafe(s, l, ev);
  }

  lemma OpenStage(l: Limits, s2: Link) returns (s3: Link)
    requires IsTunnelLimits(l) && OneChannel(s2, l, 1, 0) && LinkInv(s2) && LinkSafe(s2, l)
    ensures LinkCan(s2, l, Public(ServerEvent.Open(true))) && s3 == LinkStep(s2, l, Public(ServerEvent.Open(true)))
    ensures LinkInv(s3) && LinkSafe(s3, l) && s3 == s2.(server := s3.server)
    ensures s3.server.pumps == map[1 := Pump(0, true, 0, [], None, Active)]
  {
    OpenOne(s2, l);
    s3 := LinkStep(s2, l, Public(ServerEvent.Open(true)));
    StepKeepsBoth(s2, l, Public(ServerEvent.Open(true)), s3);
  }

  lemma ConnectStage(l: Limits, u: Link) returns (s1: Link, s2: Link)
    requires IsTunnelLimits(l) && LinkInv(u) && LinkSafe(u, l) && 1 !in u.seen
    requires u.server.pumps == map[] && u.orphans == map[] && u.nextTicket == 0
    ensures LinkCan(u, l, Replace(1, 1)) && s1 == LinkStep(u, l, Replace(1, 1))
    ensures LinkCan(s1, l, Connected(0, 1, 0, 0)) && s2 == LinkStep(s1, l, Connected(0, 1, 0, 0))
    ensures OneChannel(s2, l, 1, 0) && s2.orphans == map[] && s2.era == u.era + 1 && s2.seen == u.seen + {1}
    ensures LinkInv(s2) && LinkSafe(s2, l)
  {
    s1 := ReplaceEffect(u, l, 1);
    s2 := FirstConnection(l, u, s1);
    StepKeepsBoth(u, l, Replace(1, 1), s1);
    StepKeepsBoth(s1, l, Connected(0, 1, 0, 0), s2);
  }

  /** Whatever the limits: a tunnel is connected, opens a request whose body is still going, and is connected
      anew; when the old body ends, REQUEST_END goes out on the new connection, whose client fails it. */
  lemma OrphanFailsNewConnection(l: Limits) returns (t: Link)
    requires IsTunnelLimits(l)
    ensures LinkRun(NEW_TUNNEL, l, ORPHANING) == Some(t)
    ensures t.active == Some(2) && t.server == Init(1, l) && t.strays == [Stray(Orphan(1, 1), 0, RequestEnd(1, RequestBody, -1))]
    ensures ReceiveFrame(InitClient(1, l), l, 0, t.strays[0].frame).error == Some(UnknownStream)
  {
    var s1, s2 := ConnectStage(l, NEW_TUNNEL);
    var s3 := OpenStage(l, s2);
    var s4 := ReplaceEffect(s3, l, 2);
    t := SecondConnection(l, s3, s4);
    FollowRun(l, s1, s2, s3, s4, LinkStep(s4, l, Connected(1, 2, 0, 0)), t);
    FreshClientFails(1, l, 0, 1, -1);
  }

  lemma SecondConnection(l: Limits, s3: Link, s4: Link) returns (t: Link)
    requires Follows(s3, l, 2, s4) && s3.server.pumps == map[1 := Pump(0, true, 0, [], None, Active)]
    requires s3.orphans == map[] && s3.era == 1 && s3.nextTicket == 1
    ensures LinkCan(s4, l, Connected(1, 2, 0, 0))
    ensures var s5 := LinkStep(s4, l, Connected(1, 2, 0, 0));
            LinkCan(s5, l, OrphanEnds(Orphan(1, 1))) && t == LinkStep(s5, l, OrphanEnds(Orphan(1, 1)))
    ensures t.active == Some(2) && t.server == Init(1, l) && t.strays == [Stray(Orphan(1, 1), 0, RequestEnd(1, RequestBody, -1))]
  {
    SurvivingFew(Pump(0, true, 0, [], None, Active), 1);
    ConnectOne(s4, l, 2, 1);
    var s5 := LinkStep(s4, l, Connected(1, 2, 0, 0));
    OrphanEndsOne(s5, l);
    t := LinkStep(s5, l, OrphanEnds(Orphan(1, 1)));
  }

  lemma FollowRun(l: Limits, s1: Link, s2: Link, s3: Link, s4: Link, s5: Link, t: Link)
    requires LinkCan(NEW_TUNNEL, l, Replace(1, 1)) && s1 == LinkStep(NEW_TUNNEL, l, Replace(1, 1))
    requires LinkCan(s1, l, Connected(0, 1, 0, 0)) && s2 == LinkStep(s1, l, Connected(0, 1, 0, 0))
    requires LinkCan(s2, l, Public(ServerEvent.Open(true))) && s3 == LinkStep(s2, l, Public(ServerEvent.Open(true)))
    requires LinkCan(s3, l, Replace(2, 1)) && s4 == LinkStep(s3, l, Replace(2, 1))
    requires LinkCan(s4, l, Connected(1, 2, 0, 0)) && s5 == LinkStep(s4, l, Connected(1, 2, 0, 0))
    requires LinkCan(s5, l, OrphanEnds(Orphan(1, 1))) && t == LinkStep(s5, l, OrphanEnds(Orphan(1, 1)))
    ensures LinkRun(NEW_TUNNEL, l, ORPHANING) == Some(t)
  {
    var e := [OrphanEnds(Orphan(1, 1))] + [];
    var d := [Connected(1, 2, 0, 0)] + e;
    var c := [Replace(2, 1)] + d;
    var b := [Public(ServerEvent.Open(true))] + c;
    var a := [Connected(0, 1, 0, 0)] + b;
    RunsOn(s5, l, OrphanEnds(Orphan(1, 1)), []);
    RunsOn(s4, l, Connected(1, 2, 0, 0), e);
    RunsOn(s3, l, Replace(2, 1), d);
    RunsOn(s2, l, Public(ServerEvent.Open(true)), c);
    RunsOn(s1, l, Connected(0, 1, 0, 0), b);
    RunsOn(NEW_TUNNEL, l, Replace(1, 1), a);
  }

  /** The other outcome: the new connection has a request under the same id, and the stray frame closes its
      writer although the server has sent nothing of its body and its pump runs on. */
  lemma OrphanClosesOtherWriter(l: Limits) returns (evs: seq<SysEvent>, t: Sys)
    requires IsTunnelLimits(l)
    ensures Leads(l, evs, t) && 1 in t.server.pumps && t.server.pumps[1].status == Active && 1 !in t.client.closedWriters
    ensures var r := ReceiveFrame(t.client, l, 0, RequestEnd(1, RequestBody, -1)); r.error == None && 1 in r.client.closedWriters
  {
    var s := InitSys(1, l);
    var m := Next(s, l, ServerActs(ServerEvent.Open(true))).sys;
    evs := Extend(l, [], s, ServerActs(ServerEvent.Open(true)), m);
    assert Head(m.down, 0) == RequestStart(1, true);
    TakeNothing(m.client, l);
    t := Next(m, l, DeliverDown(0)).sys;
    evs := Extend(l, evs, m, DeliverDown(0), t);
  }
}
