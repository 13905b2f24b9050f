/** The client's own steps keep ClientInv: body writes finishing, and everything the upstream does. */
module ClientEvents {
  import opened Protocol
  import opened CreditSpec
  import opened Frames
  import opened ServerSpec
  import opened ServerLogs
  import opened ServerLogOps
  import opened ClientSpec
  import opened ClientLogs
  import opened ClientOps
  import opened ClientSteps

  /** Nothing received; out sent on c. */
  lemma CQuietLane(a: CLane, a': CLane, l: Limits, recvd: seq<Frame>, sent: seq<Frame>, sent': seq<Frame>)
    requires CLaneLog(a, l, recvd, sent)
    requires a'.outCredit + |Payload(sent')| == a.outCredit + |Payload(sent)|
    requires a'.inCredit + ChannelGrants(sent) == a.inCredit + ChannelGrants(sent') && a'.stale == a.stale
    requires a'.inCredit + a'.held + a'.lost == a.inCredit + a.held + a.lost
    ensures CLaneLog(a', l, recvd, sent')
  {
  }

  /** A step that sends one metadata frame of stream i and moves no window of the channel. */
  lemma OneOut(cl: Client, cl': Client, l: Limits, D: Logs, U: Logs, i: nat, c: nat, f: Frame, p': CPart)
    requires CNear(cl, l, D, U, i, c) && Did(cl, cl', i, c, p', CLaneOf(cl, c)) && cl'.homes == cl.homes
    requires Of(f, i) && !IsData(f)
    requires CPartLog(p', l, Proj(D[c], i), Proj(U[c], i) + [f])
    ensures CLogStep(cl, cl', l, D, U, i, c, [], [f])
  {
    Snoc(U[c], f);
    ProjSnoc(U[c], f, i);
    PutNothing(D, c);
  }

  lemma NoneOut(cl: Client, cl': Client, l: Limits, D: Logs, U: Logs, i: nat, c: nat, p': CPart)
    requires CNear(cl, l, D, U, i, c) && Did(cl, cl', i, c, p', CLaneOf(cl, c)) && cl'.homes == cl.homes
    requires CPartLog(p', l, Proj(D[c], i), Proj(U[c], i))
    ensures CLogStep(cl, cl', l, D, U, i, c, [], [])
  {
    PutNothing(D, c);
    PutNothing(U, c);
  }

  lemma AbortStep(cl: Client, l: Limits, D: Logs, U: Logs, i: nat, c: nat)
    requires CNear(cl, l, D, U, i, c)
    ensures var r := AbortResponse(cl, i, c); CLogStep(cl, r.client, l, D, U, i, c, [], r.out)
  {
    var cl' := CleanupClient(cl, i);
    var p' := Gone(CPartOf(cl, i), cl', i);
    CleanupDid(cl, i, c);
    if i in cl.streams {
      CAbortPart(CPartOf(cl, i), p', l, i, Proj(D[c], i), Proj(U[c], i));
      OneOut(cl, cl', l, D, U, i, c, ResponseAbort(i), p');
    } else {
      CGonePart(CPartOf(cl, i), p', l, Proj(D[c], i), Proj(U[c], i));
      NoneOut(cl, cl', l, D, U, i, c, p');
    }
  }

  lemma ClientGrantSnoc(fs: seq<Frame>, i: nat, n: nat)
    ensures var gs := fs + GrantFrames(i, RequestBody, n);
            Payload(gs) == Payload(fs) && ChannelGrants(gs) == ChannelGrants(fs) + n && Proj(gs, i) == WithClientGrant(Proj(fs, i), i, n)
    ensures OnlyOf(GrantFrames(i, RequestBody, n), i)
  {
    GrantSnoc(fs, i, RequestBody, n);
  }

  lemma TakenPart(cl: Client, l: Limits, D: Logs, U: Logs, i: nat, c: nat)
    requires CNear(cl, l, D, U, i, c) && c in cl.busy && cl.busy[c].stream == i
    ensures CPartLog(CPartOf(Taken(cl, c), i), l, Proj(D[c], i), WithClientGrant(Proj(U[c], i), i, |cl.busy[c].payload|))
  {
    TakenDid(cl, c);
    CWrittenPart(CPartOf(cl, i), CPartOf(Taken(cl, c), i), l, i, Proj(D[c], i), Proj(U[c], i));
  }

  lemma TakenStep(cl: Client, l: Limits, D: Logs, U: Logs, i: nat, c: nat)
    requires CNear(cl, l, D, U, i, c) && c in cl.busy && cl.busy[c].stream == i
    ensures CLogStep(cl, Taken(cl, c), l, D, U, i, c, [], GrantFrames(i, RequestBody, |cl.busy[c].payload|))
  {
    var cl' := Taken(cl, c);
    var n := |cl.busy[c].payload|;
    TakenDid(cl, c);
    TakenPart(cl, l, D, U, i, c);
    ClientGrantSnoc(U[c], i, n);
    PutNothing(D, c);
    CQuietLane(CLaneOf(cl, c), CLaneOf(cl', c), l, D[c], U[c], U[c] + GrantFrames(i, RequestBody, n));
  }

  lemma FinishWriteInv(cl: Client, l: Limits, D: Logs, U: Logs, c: nat)
    requires ClientInv(cl, l, D, U) && c in cl.busy
    ensures var r := FinishWrite(cl, c); c < |U| && ClientInv(r.client, l, D, Put(U, c, r.out))
  {
    var i := cl.busy[c].stream;
    CNearInv(cl, l, D, U, i);
    TakenStep(cl, l, D, U, i, c);
    CLogStepInv(cl, Taken(cl, c), l, D, U, i, c, [], GrantFrames(i, RequestBody, |cl.busy[c].payload|));
    PutNothing(D, c);
    if cl.busy[c].payload == [] {
      PutNothing(U, c);
      AbortInv(Taken(cl, c), l, D, U, i, c);
    }
  }

  lemma AbortInv(cl: Client, l: Limits, D: Logs, U: Logs, i: nat, c: nat)
    requires ClientInv(cl, l, D, U) && i in cl.homes && cl.homes[i] == c
    ensures var r := AbortResponse(cl, i, c); c < |U| && ClientInv(r.client, l, D, Put(U, c, r.out))
  {
    CNearInv(cl, l, D, U, i);
    AbortStep(cl, l, D, U, i, c);
    CLogStepInv(cl, AbortResponse(cl, i, c).client, l, D, U, i, c, [], AbortResponse(cl, i, c).out);
    PutNothing(D, c);
  }

  lemma FailWriteDid(cl: Client, i: nat, c: nat)
    requires CIds(cl) && At(cl, i, c) && c in cl.busy && cl.busy[c].stream == i
    ensures var cl' := FailWrite(cl, c).client; var p, a, n := CPartOf(cl, i), CLaneOf(cl, c), |cl.busy[c].payload|;
            Did(cl, cl', i, c, Gone(p, cl', i).(held := []), a.(held := 0, lost := a.lost + n)) && a.held == n
  {
    var cl1 := cl.(busy := cl.busy - {c}, lost := Bump(cl.lost, c, |cl.busy[c].payload|));
    ReleasedDid(cl, c);
    CleanupDid(cl1, i, c);
    CMovesTrans(cl, cl1, FailWrite(cl, c).client, i, c);
  }

  lemma FailWriteStep(cl: Client, l: Limits, D: Logs, U: Logs, i: nat, c: nat)
    requires CNear(cl, l, D, U, i, c) && c in cl.busy && cl.busy[c].stream == i
    ensures var r := FailWrite(cl, c); CLogStep(cl, r.client, l, D, U, i, c, [], r.out)
  {
    var cl' := FailWrite(cl, c).client;
    FailWriteDid(cl, i, c);
    CDiscardPart(CPartOf(cl, i), CPartOf(cl', i), l, i, Proj(D[c], i), Proj(U[c], i));
    DiscardStep(cl, cl', l, D, U, i, c, CPartOf(cl', i), CLaneOf(cl', c));
  }

  /** A step that gives up what stream i held, telling the server if the stream was live. */
  lemma DiscardStep(cl: Client, cl': Client, l: Limits, D: Logs, U: Logs, i: nat, c: nat, p': CPart, a': CLane)
    requires CNear(cl, l, D, U, i, c) && Did(cl, cl', i, c, p', a') && p'.home == Some(c)
    requires i !in cl.streams ==> CPartLog(p', l, Proj(D[c], i), Proj(U[c], i))
    requires i in cl.streams ==> CPartLog(p', l, Proj(D[c], i), Proj(U[c], i) + [ResponseAbort(i)])
    requires var a := CLaneOf(cl, c); a' == a.(held := 0, lost := a.lost + a.held)
    ensures CLogStep(cl, cl', l, D, U, i, c, [], if i in cl.streams then [ResponseAbort(i)] else [])
  {
    PutNothing(D, c);
    CQuietLane(CLaneOf(cl, c), a', l, D[c], U[c], U[c]);
    if i in cl.streams {
      CLaneAborts(a', l, i, D[c], U[c]);
      Assemble(cl, cl', l, D, U, i, c, [], [ResponseAbort(i)], p', a');
    } else {
      PutNothing(U, c);
      Assemble(cl, cl', l, D, U, i, c, [], [], p', a');
    }
  }

  lemma FailWriteInv(cl: Client, l: Limits, D: Logs, U: Logs, c: nat)
    requires ClientInv(cl, l, D, U) && c in cl.busy
    ensures var r := FailWrite(cl, c); c < |U| && ClientInv(r.client, l, D, Put(U, c, r.out))
  {
    var i := cl.busy[c].stream;
    CNearInv(cl, l, D, U, i);
    FailWriteStep(cl, l, D, U, i, c);
    CLogStepInv(cl, FailWrite(cl, c).client, l, D, U, i, c, [], FailWrite(cl, c).out);
    PutNothing(D, c);
  }

  // ----- the upstream -----

  lemma RespondStep(cl: Client, l: Limits, D: Logs, U: Logs, i: nat, c: nat, body: bool)
    requires CNear(cl, l, D, U, i, c) && ClientEnabled(cl, l, Respond(i, body)) && cl.streams[i].channel == c
    ensures var r := ClientStep(cl, l, Respond(i, body)); CLogStep(cl, r.client, l, D, U, i, c, [], r.out)
  {
    var st := cl.streams[i].(responding := true, responseBody := body);
    var cl' := cl.(streams := cl.streams[i := st]);
    var p' := CPartOf(cl, i).(stream := Some(st));
    RecordDid(cl, i, c, st, []);
    CRespondPart(CPartOf(cl, i), p', l, i, body, Proj(D[c], i), Proj(U[c], i));
    OneOut(cl, cl', l, D, U, i, c, ResponseStart(i, body), p');
  }

  lemma UpstreamReadStep(cl: Client, l: Limits, D: Logs, U: Logs, i: nat, c: nat, value: bytes)
    requires CNear(cl, l, D, U, i, c) && ClientEnabled(cl, l, UpstreamRead(i, value)) && cl.streams[i].channel == c
    ensures var r := ClientStep(cl, l, UpstreamRead(i, value)); CLogStep(cl, r.client, l, D, U, i, c, [], r.out)
  {
    var st := cl.streams[i];
    var r := ClientStep(cl, l, UpstreamRead(i, value));
    RecordDid(cl, i, c, st.(rest := Some(value)), value);
    CReadPart(CPartOf(cl, i), CPartOf(r.client, i), l, value, Proj(D[c], i), Proj(U[c], i));
    PutNothing(D, c);
    PutNothing(U, c);
  }

  lemma SendLane(a: CLane, a': CLane, l: Limits, f: Frame, i: nat, recvd: seq<Frame>, sent: seq<Frame>)
    requires CLaneLog(a, l, recvd, sent) && f.ResponseData? && f.streamId == i && |f.payload| <= a.outCredit
    requires a' == a.(outCredit := a.outCredit - |f.payload|)
    ensures CLaneLog(a', l, recvd, sent + [f]) && Proj(sent + [f], i) == Proj(sent, i) + [f]
  {
    Snoc(sent, f);
    ProjSnoc(sent, f, i);
  }

  lemma SendStep(cl: Client, cl': Client, l: Limits, D: Logs, U: Logs, i: nat, c: nat, f: Frame, a: CLane, p': CPart, a': CLane)
    requires |D| == |U| && c < |D| && (i in cl.homes ==> cl.homes[i] == c) && Did(cl, cl', i, c, p', a') && p'.home == Some(c)
    requires f.ResponseData? && f.streamId == i && |f.payload| <= a.outCredit && a' == a.(outCredit := a.outCredit - |f.payload|)
    requires CLaneLog(a, l, D[c], U[c]) && CPartLog(p', l, Proj(D[c], i), Proj(U[c], i) + [f])
    ensures CLogStep(cl, cl', l, D, U, i, c, [], [f])
  {
    SendLane(a, a', l, f, i, D[c], U[c]);
    PutNothing(D, c);
    Assemble(cl, cl', l, D, U, i, c, [], [f], p', a');
  }

  lemma UpstreamSendPart(cl: Client, cl': Client, l: Limits, i: nat, c: nat, f: Frame, recvd: seq<Frame>, sent: seq<Frame>)
    requires At(cl, i, c) && ClientEnabled(cl, l, UpstreamSend(i)) && cl.streams[i].channel == c && cl' == SendChunk(cl, l, i).client
    requires f == ResponseData(i, cl.streams[i].sendNext, FLAG_NONE, Chunk(cl.streams[i].rest.value, l.maxFrameBytes))
    requires CPartLog(CPartOf(cl, i), l, recvd, sent)
    ensures CPartLog(CPartOf(cl', i), l, recvd, sent + [f])
  {
    SendDid(cl, l, i, c);
    CSendPart(CPartOf(cl, i), CPartOf(cl', i), l, i, f.payload, recvd, sent);
  }

  lemma UpstreamSendStep(cl: Client, l: Limits, D: Logs, U: Logs, i: nat, c: nat)
    requires CNear(cl, l, D, U, i, c) && ClientEnabled(cl, l, UpstreamSend(i)) && cl.streams[i].channel == c
    ensures var r := SendChunk(cl, l, i); CLogStep(cl, r.client, l, D, U, i, c, [], r.out)
  {
    var cl' := SendChunk(cl, l, i).client;
    var f := ResponseData(i, cl.streams[i].sendNext, FLAG_NONE, Chunk(cl.streams[i].rest.value, l.maxFrameBytes));
    SendDid(cl, l, i, c);
    UpstreamSendPart(cl, cl', l, i, c, f, Proj(D[c], i), Proj(U[c], i));
    SendStep(cl, cl', l, D, U, i, c, f, CLaneOf(cl, c), CPartOf(cl', i), CLaneOf(cl', c));
  }

  lemma UpstreamEndPart(cl: Client, l: Limits, i: nat, c: nat, f: Frame, recvd: seq<Frame>, sent: seq<Frame>)
    requires At(cl, i, c) && CPartLog(CPartOf(cl, i), l, recvd, sent)
    requires i in cl.streams && cl.streams[i].responding && cl.streams[i].rest.None?
    requires f == ResponseEnd(i, ResponseBody, cl.streams[i].sendNext - 1)
    ensures CPartLog(Gone(CPartOf(cl, i), CleanupClient(cl, i), i), l, recvd, sent + [f])
  {
    CEndPart(CPartOf(cl, i), Gone(CPartOf(cl, i), CleanupClient(cl, i), i), l, i, f, recvd, sent);
  }

  lemma UpstreamEndStep(cl: Client, l: Limits, D: Logs, U: Logs, i: nat, c: nat)
    requires CNear(cl, l, D, U, i, c) && i in cl.streams && cl.streams[i].responding && cl.streams[i].rest.None?
    ensures CLogStep(cl, CleanupClient(cl, i), l, D, U, i, c, [], [ResponseEnd(i, ResponseBody, cl.streams[i].sendNext - 1)])
  {
    var f := ResponseEnd(i, ResponseBody, cl.streams[i].sendNext - 1);
    CleanupDid(cl, i, c);
    UpstreamEndPart(cl, l, i, c, f, Proj(D[c], i), Proj(U[c], i));
    OneOut(cl, CleanupClient(cl, i), l, D, U, i, c, f, Gone(CPartOf(cl, i), CleanupClient(cl, i), i));
  }

  ghost predicate CStepped(r: ClientReply, cl: Client, l: Limits, D: Logs, U: Logs, i: nat, c: nat) {
    r.error == None && r.channel == c && CLogStep(cl, r.client, l, D, U, i, c, [], r.out)
  }

  lemma RespondCase(cl: Client, l: Limits, D: Logs, U: Logs, ev: ClientEvent, c: nat)
    requires ev.Respond? && ClientEnabled(cl, l, ev) && CNear(cl, l, D, U, ev.i, c) && cl.streams[ev.i].channel == c
    ensures CStepped(ClientStep(cl, l, ev), cl, l, D, U, ev.i, c)
  {
    RespondStep(cl, l, D, U, ev.i, c, ev.responseBody);
  }

  lemma ReadCase(cl: Client, l: Limits, D: Logs, U: Logs, ev: ClientEvent, c: nat)
    requires ev.UpstreamRead? && ClientEnabled(cl, l, ev) && CNear(cl, l, D, U, ev.i, c) && cl.streams[ev.i].channel == c
    ensures CStepped(ClientStep(cl, l, ev), cl, l, D, U, ev.i, c)
  {
    UpstreamReadStep(cl, l, D, U, ev.i, c, ev.value);
  }

  lemma SendCase(cl: Client, l: Limits, D: Logs, U: Logs, ev: ClientEvent, c: nat)
    requires ev.UpstreamSend? && ClientEnabled(cl, l, ev) && CNear(cl, l, D, U, ev.i, c) && cl.streams[ev.i].channel == c
    ensures CStepped(ClientStep(cl, l, ev), cl, l, D, U, ev.i, c)
  {
    UpstreamSendStep(cl, l, D, U, ev.i, c);
  }

  lemma EndStepped(cl: Client, l: Limits, D: Logs, U: Logs, i: nat, c: nat, r: ClientReply)
    requires CNear(cl, l, D, U, i, c) && i in cl.streams && cl.streams[i].responding && cl.streams[i].rest.None?
    requires r == ClientReply(CleanupClient(cl, i), c, [ResponseEnd(i, ResponseBody, cl.streams[i].sendNext - 1)], None)
    ensures CStepped(r, cl, l, D, U, i, c)
  {
    UpstreamEndStep(cl, l, D, U, i, c);
  }

  lemma EndReplies(cl: Client, l: Limits, i: nat)
    requires ClientEnabled(cl, l, UpstreamEnd(i))
    ensures i in cl.streams && cl.streams[i].responding && cl.streams[i].rest.None?
    ensures ClientStep(cl, l, UpstreamEnd(i))
         == ClientReply(CleanupClient(cl, i), cl.streams[i].channel, [ResponseEnd(i, ResponseBody, cl.streams[i].sendNext - 1)], None)
  {
  }

  lemma EndCase(cl: Client, l: Limits, D: Logs, U: Logs, i: nat, c: nat)
    requires ClientEnabled(cl, l, UpstreamEnd(i)) && CNear(cl, l, D, U, i, c) && cl.streams[i].channel == c
    ensures CStepped(ClientStep(cl, l, UpstreamEnd(i)), cl, l, D, U, i, c)
  {
    EndReplies(cl, l, i);
    EndStepped(cl, l, D, U, i, c, ClientStep(cl, l, UpstreamEnd(i)));
  }

  lemma FailCase(cl: Client, l: Limits, D: Logs, U: Logs, ev: ClientEvent, c: nat)
    requires ev.UpstreamFail? && ClientEnabled(cl, l, ev) && CNear(cl, l, D, U, ev.i, c) && cl.streams[ev.i].channel == c
    ensures CStepped(ClientStep(cl, l, ev), cl, l, D, U, ev.i, c)
  {
    AbortStep(cl, l, D, U, ev.i, c);
  }

  lemma UpstreamStep(cl: Client, l: Limits, D: Logs, U: Logs, ev: ClientEvent, c: nat)
    requires ClientEnabled(cl, l, ev) && !ev.ReceiveDown? && !ev.WriteDone? && !ev.WriteFail?
    requires CNear(cl, l, D, U, ev.i, c) && cl.streams[ev.i].channel == c
    ensures CStepped(ClientStep(cl, l, ev), cl, l, D, U, ev.i, c)
  {
    if ev.Respond? {
      RespondCase(cl, l, D, U, ev, c);
    } else if ev.UpstreamRead? {
      ReadCase(cl, l, D, U, ev, c);
    } else if ev.UpstreamSend? {
      SendCase(cl, l, D, U, ev, c);
    } else if ev.UpstreamEnd? {
      EndCase(cl, l, D, U, ev.i, c);
    } else {
      FailCase(cl, l, D, U, ev, c);
    }
  }

  lemma UpstreamInv(cl: Client, l: Limits, D: Logs, U: Logs, ev: ClientEvent)
    requires ClientInv(cl, l, D, U) && ClientEnabled(cl, l, ev) && !ev.ReceiveDown? && !ev.WriteDone? && !ev.WriteFail?
    ensures var r := ClientStep(cl, l, ev);
            r.error == None && r.channel < |U| && ClientInv(r.client, l, D, Put(U, r.channel, r.out))
  {
    LiveHasHome(cl, l, D, U, ev.i);
    var c := cl.homes[ev.i];
    CNearInv(cl, l, D, U, ev.i);
    UpstreamStep(cl, l, D, U, ev, c);
    CLogStepInv(cl, ClientStep(cl, l, ev).client, l, D, U, ev.i, c, [], ClientStep(cl, l, ev).out);
    PutNothing(D, c);
  }

  lemma WriteInv(cl: Client, l: Limits, D: Logs, U: Logs, ev: ClientEvent)
    requires ClientInv(cl, l, D, U) && ClientEnabled(cl, l, ev) && (ev.WriteDone? || ev.WriteFail?)
    ensures var r := ClientStep(cl, l, ev);
            r.error == None && r.channel < |U| && ClientInv(r.client, l, D, Put(U, r.channel, r.out))
  {
    if ev.WriteDone? {
      FinishWriteInv(cl, l, D, U, ev.c);
    } else {
      FailWriteInv(cl, l, D, U, ev.c);
    }
  }

  /** Every step the client takes on its own keeps its invariant and its logs, and never fails. */
  lemma OwnClientStepInv(cl: Client, l: Limits, D: Logs, U: Logs, ev: ClientEvent)
    requires ClientInv(cl, l, D, U) && ClientEnabled(cl, l, ev) && !ev.ReceiveDown?
    ensures var r := ClientStep(cl, l, ev);
            r.error == None && r.channel < |U| && ClientInv(r.client, l, D, Put(U, r.channel, r.out))
  {
    if ev.WriteDone? || ev.WriteFail? {
      WriteInv(cl, l, D, U, ev);
    } else {
      UpstreamInv(cl, l, D, U, ev);
    }
  }
}
