/** What each client operation does to its stream, its channel and everything else. */
module ClientSteps {
  import opened Protocol
  import opened CreditSpec
  import opened Frames
  import opened ServerSpec
  import opened ServerLogs
  import opened ClientSpec
  import opened ClientLogs

  /** An operation on stream i of channel c that sends out: its effect, without any log. */
  ghost predicate Did(cl: Client, cl': Client, i: nat, c: nat, p': CPart, a': CLane) {
    && CMoves(cl, cl', i, c) && CIds(cl')
    && CPartOf(cl', i) == p' && CLaneOf(cl', c) == a'
  }

  /** A step on logs, put together from what it does to stream and channel. */
  lemma Assemble(cl: Client, cl': Client, l: Limits, D: Logs, U: Logs, i: nat, c: nat, ins: seq<Frame>, out: seq<Frame>, p': CPart, a': CLane)
    requires |D| == |U| && c < |D| && Did(cl, cl', i, c, p', a') && p'.home == Some(c) && (i in cl.homes ==> cl.homes[i] == c)
    requires OnlyOf(ins, i) && OnlyOf(out, i)
    requires CPartLog(p', l, Proj(D[c] + ins, i), Proj(U[c] + out, i)) && CLaneLog(a', l, D[c] + ins, U[c] + out)
    ensures CLogStep(cl, cl', l, D, U, i, c, ins, out)
  {
    assert CPartOf(cl', i).home == Some(c);
  }

  /** Stream i is on channel c. */
  ghost predicate At(cl: Client, i: nat, c: nat) {
    CIds(cl) && i in cl.homes && cl.homes[i] == c
  }

  function Gone(p: CPart, cl': Client, i: nat): CPart {
    p.(stream := None, outCredit := CPartOf(cl', i).outCredit, inCredit := CPartOf(cl', i).inCredit)
  }

  lemma CleanupParts(cl: Client, i: nat, j: nat)
    requires j != i
    ensures CPartOf(CleanupClient(cl, i), j) == CPartOf(cl, j)
  {
  }

  lemma CleanupApart(cl: Client, i: nat, c: nat)
    requires At(cl, i, c)
    ensures CMoves(cl, CleanupClient(cl, i), i, c)
  {
    forall j | j != i ensures CPartOf(CleanupClient(cl, i), j) == CPartOf(cl, j) {
      CleanupParts(cl, i, j);
    }
  }

  lemma CleanupIds(cl: Client, i: nat)
    requires CIds(cl) && i in cl.homes
    ensures CIds(CleanupClient(cl, i))
  {
  }

  lemma CleanupDid(cl: Client, i: nat, c: nat)
    requires At(cl, i, c)
    ensures var cl' := CleanupClient(cl, i); Did(cl, cl', i, c, Gone(CPartOf(cl, i), cl', i), CLaneOf(cl, c))
  {
    CleanupApart(cl, i, c);
    CleanupIds(cl, i);
  }

  lemma StartApart(cl: Client, l: Limits, i: nat, c: nat, hasBody: bool)
    requires CIds(cl) && i !in cl.homes && i !in cl.streams
    ensures var cl' := StartRequest(cl, l, c, i, hasBody).client; CMoves(cl, cl', i, c) && CIds(cl')
  {
    var cl' := StartRequest(cl, l, c, i, hasBody).client;
    forall j | j != i ensures CPartOf(cl', j) == CPartOf(cl, j) {
    }
  }

  lemma StartDid(cl: Client, l: Limits, i: nat, c: nat, hasBody: bool)
    requires CIds(cl) && i !in cl.homes && i !in cl.streams && HeldBytes(cl, i) == []
    ensures var cl' := StartRequest(cl, l, c, i, hasBody).client;
            Did(cl, cl', i, c,
                CPartOf(cl, i).(stream := Some(ClientStream(c, hasBody, 0, None, 0, false, false, None)), home := Some(c),
                                writerClosed := false, outCredit := l.streamCreditBytes, inCredit := l.streamCreditBytes),
                CLaneOf(cl, c))
  {
    StartApart(cl, l, i, c, hasBody);
  }

  /** A data frame passes the credit and sequence checks at a live stream. */
  ghost predicate Passes(cl: Client, i: nat, c: nat, f: Frame) {
    && At(cl, i, c) && c !in cl.busy && i in cl.streams && f.RequestData? && f.streamId == i
    && f.flags == FLAG_NONE && f.seqNo == cl.streams[i].recvNext
    && ConsumeInbound(cl.credit, i, c, RequestBody, |f.payload|).ok
  }

  lemma DataApart(cl: Client, i: nat, c: nat, f: Frame)
    requires Passes(cl, i, c, f) && cl.streams[i].hasBody
    ensures var r := ReceiveRequestData(cl, i, c, f.seqNo, f.flags, f.payload); CMoves(cl, r.client, i, c) && CIds(r.client)
  {
    var cl' := ReceiveRequestData(cl, i, c, f.seqNo, f.flags, f.payload).client;
    forall j | j != i ensures CPartOf(cl', j) == CPartOf(cl, j) {
    }
  }

  lemma DataDid(cl: Client, i: nat, c: nat, f: Frame)
    requires Passes(cl, i, c, f) && cl.streams[i].hasBody
    ensures var r := ReceiveRequestData(cl, i, c, f.seqNo, f.flags, f.payload); var st := cl.streams[i];
            var p, a, n := CPartOf(cl, i), CLaneOf(cl, c), |f.payload|;
            && n <= p.inCredit && n <= a.inCredit && r.out == [] && r.error == None && r.channel == c
            && Did(cl, r.client, i, c, p.(stream := Some(st.(recvNext := st.recvNext + 1)), held := f.payload, inCredit := p.inCredit - n),
                   a.(inCredit := a.inCredit - n, held := n))
  {
    DataApart(cl, i, c, f);
  }

  lemma AcceptMoves(cl: Client, i: nat, c: nat, amount: nat)
    requires At(cl, i, c) && i in cl.streams
    ensures CMoves(cl, AcceptRequestData(cl, i, c, amount), i, c)
  {
    var cl' := AcceptRequestData(cl, i, c, amount);
    forall j | j != i ensures CPartOf(cl', j) == CPartOf(cl, j) {
    }
  }

  lemma CMovesTrans(cl: Client, cl': Client, cl'': Client, i: nat, c: nat)
    requires CMoves(cl, cl', i, c) && CMoves(cl', cl'', i, c)
    ensures CMoves(cl, cl'', i, c)
  {
    forall j | j != i ensures CPartOf(cl'', j) == CPartOf(cl, j) {
      assert CPartOf(cl', j) == CPartOf(cl, j);
    }
    forall d | d != c ensures CLaneOf(cl'', d) == CLaneOf(cl, d) {
      assert CLaneOf(cl', d) == CLaneOf(cl, d);
    }
  }

  /** The bytes of a refused frame are accounted as lost. */
  function Refused(cl: Client, i: nat, c: nat, n: nat): Client
    requires i in cl.streams
  {
    AcceptRequestData(cl, i, c, n).(lost := Bump(cl.lost, c, n))
  }

  lemma RefusedApart(cl: Client, i: nat, c: nat, n: nat)
    requires At(cl, i, c) && i in cl.streams
    ensures CMoves(cl, Refused(cl, i, c, n), i, c) && At(Refused(cl, i, c, n), i, c)
  {
    var cl1, cl2 := AcceptRequestData(cl, i, c, n), Refused(cl, i, c, n);
    AcceptMoves(cl, i, c, n);
    forall j | j != i ensures CPartOf(cl2, j) == CPartOf(cl, j) {
      assert CPartOf(cl1, j) == CPartOf(cl, j);
    }
    forall d | d != c ensures CLaneOf(cl2, d) == CLaneOf(cl, d) {
      assert CLaneOf(cl1, d) == CLaneOf(cl, d);
    }
  }

  lemma RefusedEffect(cl: Client, i: nat, c: nat, n: nat)
    requires At(cl, i, c) && i in cl.streams && ConsumeInbound(cl.credit, i, c, RequestBody, n).ok
    ensures var p, a := CPartOf(cl, i), CLaneOf(cl, c); var p' := CPartOf(Refused(cl, i, c, n), i);
            && p' == p.(stream := p'.stream, inCredit := p'.inCredit)
            && n <= a.inCredit && CLaneOf(Refused(cl, i, c, n), c) == a.(inCredit := a.inCredit - n, lost := a.lost + n)
  {
  }

  lemma RefuseReply(cl: Client, i: nat, c: nat, f: Frame)
    requires Passes(cl, i, c, f) && !cl.streams[i].hasBody
    ensures ReceiveRequestData(cl, i, c, f.seqNo, f.flags, f.payload)
            == ClientReply(CleanupClient(Refused(cl, i, c, |f.payload|), i), c, [ResponseAbort(i)], None)
  {
  }

  lemma RefuseDid(cl: Client, i: nat, c: nat, n: nat)
    requires At(cl, i, c) && i in cl.streams && ConsumeInbound(cl.credit, i, c, RequestBody, n).ok
    ensures var cl' := CleanupClient(Refused(cl, i, c, n), i); var p, a := CPartOf(cl, i), CLaneOf(cl, c);
            n <= a.inCredit && Did(cl, cl', i, c, Gone(p, cl', i), a.(inCredit := a.inCredit - n, lost := a.lost + n))
  {
    var cl2 := Refused(cl, i, c, n);
    RefusedApart(cl, i, c, n);
    RefusedEffect(cl, i, c, n);
    CleanupDid(cl2, i, c);
    CMovesTrans(cl, cl2, CleanupClient(cl2, i), i, c);
  }

  lemma CloseDid(cl: Client, i: nat, c: nat, f: Frame)
    requires At(cl, i, c) && i in cl.streams && f.RequestEnd? && f.kind == RequestBody && f.lastSeq == cl.streams[i].recvNext - 1
    requires !CPartOf(cl, i).writerClosed
    ensures var r := ReceiveRequestEnd(cl, i, c, f.kind, f.lastSeq); var st := cl.streams[i]; var p := CPartOf(cl, i);
            && r.out == [] && r.error == None && r.channel == c
            && Did(cl, r.client, i, c, p.(stream := Some(st.(endSeq := Some(f.lastSeq))), writerClosed := p.writerClosed || st.hasBody),
                   CLaneOf(cl, c))
  {
    var cl' := ReceiveRequestEnd(cl, i, c, f.kind, f.lastSeq).client;
    forall j | j != i ensures CPartOf(cl', j) == CPartOf(cl, j) {
    }
  }

  lemma StaleDid(cl: Client, i: nat, c: nat, n: nat)
    requires At(cl, i, c)
    ensures var a := CLaneOf(cl, c);
            Did(cl, cl.(stale := Bump(cl.stale, c, n)), i, c, CPartOf(cl, i), a.(stale := a.stale + n))
  {
    var cl' := cl.(stale := Bump(cl.stale, c, n));
    forall j | j != i ensures CPartOf(cl', j) == CPartOf(cl, j) {
    }
  }

  lemma CreditDid(cl: Client, i: nat, c: nat, amount: nat)
    requires At(cl, i, c)
    ensures var p := CPartOf(cl, i);
            Did(cl, cl.(credit := ApplyStream(cl.credit, i, ResponseBody, amount)), i, c,
                p.(outCredit := AddCredit(p.outCredit, amount)), CLaneOf(cl, c))
  {
    var cl' := cl.(credit := ApplyStream(cl.credit, i, ResponseBody, amount));
    forall j | j != i ensures CPartOf(cl', j) == CPartOf(cl, j) {
    }
  }

  /** The first half of FinishWrite: take the bytes, move both windows. */
  function Taken(cl: Client, c: nat): Client
    requires c in cl.busy
  {
    var i, payload := cl.busy[c].stream, cl.busy[c].payload;
    cl.(busy := cl.busy - {c},
        written := cl.written[i := GetBytes(cl.written, i) + payload],
        credit := GrantInbound(cl.credit, i, c, RequestBody, |payload|))
  }

  lemma TakenApart(cl: Client, c: nat)
    requires CIds(cl) && c in cl.busy
    ensures CMoves(cl, Taken(cl, c), cl.busy[c].stream, c) && CIds(Taken(cl, c))
  {
    var cl' := Taken(cl, c);
    forall j | j != cl.busy[c].stream ensures CPartOf(cl', j) == CPartOf(cl, j) {
    }
  }

  lemma TakenDid(cl: Client, c: nat)
    requires CIds(cl) && c in cl.busy
    requires CLaneOf(cl, c).inCredit + |cl.busy[c].payload| <= MAX_CREDIT_BYTES
    ensures var cl' := Taken(cl, c); var i, x := cl.busy[c].stream, cl.busy[c].payload; var p, a := CPartOf(cl, i), CLaneOf(cl, c);
            p.held == x && Did(cl, cl', i, c,
                p.(held := [], written := p.written + x, inCredit := if x == [] then p.inCredit else AddCredit(p.inCredit, |x|)),
                a.(inCredit := a.inCredit + |x|, held := 0))
  {
    TakenApart(cl, c);
  }

  /** The first half of FailWrite: let go of the bytes. */
  lemma ReleasedDid(cl: Client, c: nat)
    requires CIds(cl) && c in cl.busy
    ensures var i, n := cl.busy[c].stream, |cl.busy[c].payload|; var p, a := CPartOf(cl, i), CLaneOf(cl, c);
            p.held == cl.busy[c].payload &&
            Did(cl, cl.(busy := cl.busy - {c}, lost := Bump(cl.lost, c, n)), i, c, p.(held := []), a.(held := 0, lost := a.lost + n))
  {
    var i, n := cl.busy[c].stream, |cl.busy[c].payload|;
    var cl' := cl.(busy := cl.busy - {c}, lost := Bump(cl.lost, c, n));
    forall j | j != i ensures CPartOf(cl', j) == CPartOf(cl, j) {
    }
  }

  /** Only the stream's own record, and what was read from its upstream, change. */
  lemma RecordDid(cl: Client, i: nat, c: nat, st: ClientStream, value: bytes)
    requires At(cl, i, c) && i in cl.streams
    ensures var p := CPartOf(cl, i);
            && Did(cl, cl.(streams := cl.streams[i := st]), i, c, p.(stream := Some(st)), CLaneOf(cl, c))
            && Did(cl, cl.(streams := cl.streams[i := st], read := cl.read[i := GetBytes(cl.read, i) + value]), i, c,
                   p.(stream := Some(st), read := p.read + value), CLaneOf(cl, c))
  {
    var cl1 := cl.(streams := cl.streams[i := st]);
    var cl2 := cl.(streams := cl.streams[i := st], read := cl.read[i := GetBytes(cl.read, i) + value]);
    forall j | j != i ensures CPartOf(cl1, j) == CPartOf(cl, j) && CPartOf(cl2, j) == CPartOf(cl, j) {
    }
  }

  lemma SendApart(cl: Client, l: Limits, i: nat, c: nat)
    requires At(cl, i, c) && ClientEnabled(cl, l, UpstreamSend(i)) && cl.streams[i].channel == c
    ensures CMoves(cl, SendChunk(cl, l, i).client, i, c) && CIds(SendChunk(cl, l, i).client)
  {
    var cl' := SendChunk(cl, l, i).client;
    forall j | j != i ensures CPartOf(cl', j) == CPartOf(cl, j) {
    }
  }

  lemma SendDid(cl: Client, l: Limits, i: nat, c: nat)
    requires At(cl, i, c) && ClientEnabled(cl, l, UpstreamSend(i)) && cl.streams[i].channel == c
    ensures var r := SendChunk(cl, l, i); var st := cl.streams[i]; var chunk := Chunk(st.rest.value, l.maxFrameBytes);
            var p, a := CPartOf(cl, i), CLaneOf(cl, c);
            && |chunk| <= p.outCredit && |chunk| <= a.outCredit
            && Did(cl, r.client, i, c,
                   p.(stream := Some(st.(sendNext := st.sendNext + 1, rest := AfterChunk(st.rest.value, l.maxFrameBytes))),
                      outCredit := p.outCredit - |chunk|),
                   a.(outCredit := a.outCredit - |chunk|))
  {
    SendApart(cl, l, i, c);
  }
}
