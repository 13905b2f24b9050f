/** Each client operation, as a step on its stream's logs. */
module ClientOps {
  import opened Protocol
  import opened Frames
  import opened ServerSpec
  import opened ServerLogs
  import opened ServerEvents
  import opened ClientSpec
  import opened ClientLogs

  /** The books of stream i and its channel c, all in one place. */
  ghost predicate CNear(cl: Client, l: Limits, D: Logs, U: Logs, i: nat, c: nat) {
    && |D| == |U| && c < |D| && i in cl.homes && cl.homes[i] == c && CIds(cl) && IsTunnelLimits(l)
    && CPartLog(CPartOf(cl, i), l, Proj(D[c], i), Proj(U[c], i))
    && CLaneLog(CLaneOf(cl, c), l, D[c], U[c])
  }

  lemma CNearInv(cl: Client, l: Limits, D: Logs, U: Logs, i: nat)
    requires ClientInv(cl, l, D, U) && i in cl.homes
    ensures CNear(cl, l, D, U, i, cl.homes[i])
  {
    assert CLaneLog(CLaneOf(cl, cl.homes[i]), l, D[cl.homes[i]], U[cl.homes[i]]);
  }

  lemma LiveHasHome(cl: Client, l: Limits, D: Logs, U: Logs, i: nat)
    requires ClientInv(cl, l, D, U) && i in cl.streams
    ensures i in cl.homes && cl.homes[i] == cl.streams[i].channel < |D|
  {
    assert CPartOf(cl, i).stream.Some?;
    if i in cl.homes {
      assert CPartLog(CPartOf(cl, i), l, Proj(D[cl.homes[i]], i), Proj(U[cl.homes[i]], i));
    }
  }

  // ----- parts -----

  /** A stream that is gone, or that this step removes, without a frame of its own. */
  lemma CGonePart(p: CPart, p': CPart, l: Limits, recvd: seq<Frame>, sent: seq<Frame>)
    requires CPartLog(p, l, recvd, sent) && p.home.Some? && p.stream.None?
    requires p' == p.(outCredit := p'.outCredit, inCredit := p'.inCredit)
    ensures CPartLog(p', l, recvd, sent)
  {
  }

  lemma CGoneReceives(p: CPart, p': CPart, l: Limits, f: Frame, recvd: seq<Frame>, sent: seq<Frame>)
    requires CPartLog(p, l, recvd, sent) && p.home.Some? && DownNext(recvd, f) && (p.stream.None? || IsAbort(f))
    requires p' == p.(stream := None, outCredit := p'.outCredit, inCredit := p'.inCredit)
    ensures CPartLog(p', l, recvd + [f], sent)
  {
    Snoc(recvd, f);
  }

  /** The stream's last word: RESPONSE_ABORT. */
  lemma CAbortPart(p: CPart, p': CPart, l: Limits, i: nat, recvd: seq<Frame>, sent: seq<Frame>)
    requires CPartLog(p, l, recvd, sent) && p.stream.Some?
    requires p' == p.(stream := None, outCredit := p'.outCredit, inCredit := p'.inCredit)
    ensures CPartLog(p', l, recvd, sent + [ResponseAbort(i)])
  {
    Snoc(sent, ResponseAbort(i));
  }

  lemma CEndPart(p: CPart, p': CPart, l: Limits, i: nat, f: Frame, recvd: seq<Frame>, sent: seq<Frame>)
    requires CPartLog(p, l, recvd, sent) && p.stream.Some? && p.stream.value.responding && p.stream.value.rest.None?
    requires p' == p.(stream := None, outCredit := p'.outCredit, inCredit := p'.inCredit)
    requires f == ResponseEnd(i, ResponseBody, p.stream.value.sendNext - 1)
    ensures CPartLog(p', l, recvd, sent + [f])
  {
    Snoc(sent, f);
    assert Payload(sent) + [] == Payload(sent);
  }

  lemma CStartPart(p: CPart, p': CPart, l: Limits, i: nat, c: nat, hasBody: bool)
    requires CPartLog(p, l, [], []) && p.home.None?
    requires p' == p.(stream := Some(ClientStream(c, hasBody, 0, None, 0, false, false, None)), home := Some(c),
                      outCredit := l.streamCreditBytes, inCredit := l.streamCreditBytes)
    ensures CPartLog(p', l, [RequestStart(i, hasBody)], [])
  {
    Snoc([], RequestStart(i, hasBody));
    assert [] + [RequestStart(i, hasBody)] == [RequestStart(i, hasBody)];
  }

  /** A data frame goes to the request writer. */
  lemma CDataPart(p: CPart, p': CPart, l: Limits, f: Frame, recvd: seq<Frame>, sent: seq<Frame>)
    requires CPartLog(p, l, recvd, sent) && p.stream.Some? && p.held == [] && f.RequestData? && DownNext(recvd, f)
    requires |f.payload| <= p.inCredit
    requires p' == p.(stream := Some(p.stream.value.(recvNext := p.stream.value.recvNext + 1)), held := f.payload, inCredit := p.inCredit - |f.payload|)
    ensures CPartLog(p', l, recvd + [f], sent)
  {
    Snoc(recvd, f);
    assert p.written + [] == p.written;
  }

  /** A data frame for a stream without a request writer: the stream aborts. */
  lemma CRefusePart(p: CPart, p': CPart, l: Limits, i: nat, f: Frame, recvd: seq<Frame>, sent: seq<Frame>)
    requires CPartLog(p, l, recvd, sent) && p.stream.Some? && f.RequestData? && DownNext(recvd, f)
    requires p' == p.(stream := None, outCredit := p'.outCredit, inCredit := p'.inCredit)
    ensures CPartLog(p', l, recvd + [f], sent + [ResponseAbort(i)])
  {
    Snoc(recvd, f);
    Snoc(sent, ResponseAbort(i));
  }

  lemma CCloseWriterPart(p: CPart, p': CPart, l: Limits, f: Frame, recvd: seq<Frame>, sent: seq<Frame>)
    requires CPartLog(p, l, recvd, sent) && p.stream.Some? && p.held == [] && f.RequestEnd? && DownNext(recvd, f)
    requires p'.stream.Some?
    requires p' == p.(stream := Some(p.stream.value.(endSeq := p'.stream.value.endSeq)),
                      writerClosed := p.writerClosed || p.stream.value.hasBody)
    ensures CPartLog(p', l, recvd + [f], sent)
  {
    Snoc(recvd, f);
    assert p.written + [] == p.written;
  }

  lemma CCreditPart(p: CPart, p': CPart, l: Limits, f: Frame, recvd: seq<Frame>, sent: seq<Frame>)
    requires CPartLog(p, l, recvd, sent) && p.home.Some? && f.StreamCredit? && IsTunnelLimits(l)
    requires StreamGrants(recvd + [f]) <= |Payload(sent)|
    requires p' == p.(outCredit := AddCredit(p.outCredit, f.amount))
    ensures CPartLog(p', l, recvd + [f], sent)
    ensures p.stream.Some? ==> p'.outCredit == p.outCredit + f.amount
  {
    Snoc(recvd, f);
  }

  function WithClientGrant(sent: seq<Frame>, i: nat, n: nat): seq<Frame> {
    sent + if n == 0 then [] else [StreamCredit(i, RequestBody, n)]
  }

  /** The request writer took what was held; its bytes are granted back. */
  lemma CWrittenPart(p: CPart, p': CPart, l: Limits, i: nat, recvd: seq<Frame>, sent: seq<Frame>)
    requires CPartLog(p, l, recvd, sent) && p.home.Some?
    requires p' == p.(held := [], written := p.written + p.held, inCredit := p'.inCredit)
    requires p.stream.Some? ==> p'.inCredit == p.inCredit + |p.held|
    ensures CPartLog(p', l, recvd, WithClientGrant(sent, i, |p.held|))
  {
    assert p'.written + [] == p.written + p.held;
    if |p.held| == 0 {
      assert sent + [] == sent;
    } else {
      Snoc(sent, StreamCredit(i, RequestBody, |p.held|));
    }
  }

  /** The write failed: the held bytes are gone and so is the stream. */
  lemma CDiscardPart(p: CPart, p': CPart, l: Limits, i: nat, recvd: seq<Frame>, sent: seq<Frame>)
    requires CPartLog(p, l, recvd, sent) && p.home.Some?
    requires p' == p.(stream := None, held := [], outCredit := p'.outCredit, inCredit := p'.inCredit)
    ensures p.stream.None? ==> CPartLog(p', l, recvd, sent)
    ensures p.stream.Some? ==> CPartLog(p', l, recvd, sent + [ResponseAbort(i)])
  {
    assert p.written + [] == p.written;
    assert p.written <= p.written + p.held <= Payload(recvd);
    Snoc(sent, ResponseAbort(i));
  }

  lemma CRespondPart(p: CPart, p': CPart, l: Limits, i: nat, body: bool, recvd: seq<Frame>, sent: seq<Frame>)
    requires CPartLog(p, l, recvd, sent) && p.stream.Some? && !p.stream.value.responding
    requires p' == p.(stream := Some(p.stream.value.(responding := true, responseBody := body)))
    ensures CPartLog(p', l, recvd, sent + [ResponseStart(i, body)])
  {
    Snoc(sent, ResponseStart(i, body));
  }

  lemma CReadPart(p: CPart, p': CPart, l: Limits, value: bytes, recvd: seq<Frame>, sent: seq<Frame>)
    requires CPartLog(p, l, recvd, sent) && p.stream.Some? && p.stream.value.rest.None?
    requires p' == p.(stream := Some(p.stream.value.(rest := Some(value))), read := p.read + value)
    ensures CPartLog(p', l, recvd, sent)
  {
    assert Payload(sent) + [] == Payload(sent);
  }

  lemma CSendLive(p: CPart, p': CPart, l: Limits, chunk: bytes, recvd: seq<Frame>, sent: seq<Frame>, sent': seq<Frame>)
    requires p.stream.Some? && CLiveLog(p.stream.value, p, l, recvd, sent) && p.stream.value.rest.Some? && p.stream.value.responding
    requires |chunk| <= p.outCredit && p'.stream.Some?
    requires CRest(p.stream.value) == chunk + CRest(p'.stream.value)
    requires p' == p.(stream := Some(p.stream.value.(sendNext := p.stream.value.sendNext + 1, rest := p'.stream.value.rest)),
                      outCredit := p.outCredit - |chunk|)
    requires Count(sent') == Count(sent) + 1 && Payload(sent') == Payload(sent) + chunk && StreamGrants(sent') == StreamGrants(sent)
    requires !Ended(sent') && !Aborted(sent') && Responded(sent')
    ensures CLiveLog(p'.stream.value, p', l, recvd, sent') && Payload(sent') <= p'.read
  {
    assert p'.read == Payload(sent) + (chunk + CRest(p'.stream.value)) == Payload(sent') + CRest(p'.stream.value);
  }

  lemma CSendPart(p: CPart, p': CPart, l: Limits, i: nat, chunk: bytes, recvd: seq<Frame>, sent: seq<Frame>)
    requires CPartLog(p, l, recvd, sent) && p.stream.Some? && p.stream.value.responding && p.stream.value.rest.Some?
    requires chunk == Chunk(p.stream.value.rest.value, l.maxFrameBytes) && |chunk| <= p.outCredit
    requires p' == p.(stream := Some(p.stream.value.(sendNext := p.stream.value.sendNext + 1,
                                                     rest := AfterChunk(p.stream.value.rest.value, l.maxFrameBytes))),
                      outCredit := p.outCredit - |chunk|)
    ensures CPartLog(p', l, recvd, sent + [ResponseData(i, p.stream.value.sendNext, FLAG_NONE, chunk)])
  {
    var f := ResponseData(i, p.stream.value.sendNext, FLAG_NONE, chunk);
    ChunkSplits(p.stream.value.rest.value, l.maxFrameBytes);
    Snoc(sent, f);
    CSendLive(p, p', l, chunk, recvd, sent, sent + [f]);
  }

  // ----- lanes -----

  /** Sending an abort moves no window. */
  lemma CLaneAborts(a: CLane, l: Limits, i: nat, recvd: seq<Frame>, sent: seq<Frame>)
    requires CLaneLog(a, l, recvd, sent)
    ensures CLaneLog(a, l, recvd, sent + [ResponseAbort(i)])
    ensures Proj(sent + [ResponseAbort(i)], i) == Proj(sent, i) + [ResponseAbort(i)]
    ensures OnlyOf([ResponseAbort(i)], i)
  {
    Snoc(sent, ResponseAbort(i));
    ProjSnoc(sent, ResponseAbort(i), i);
  }

  lemma CLaneReceives(a: CLane, a': CLane, l: Limits, f: Frame, recvd: seq<Frame>, sent: seq<Frame>)
    requires CLaneLog(a, l, recvd, sent) && !f.ChannelCredit?
    requires a'.outCredit == a.outCredit
    requires a'.inCredit + DataBytes(f) == a.inCredit + (a'.stale - a.stale) && a'.stale >= a.stale
    requires a'.held + a'.lost + (a'.stale - a.stale) == a.held + a.lost + DataBytes(f)
    ensures CLaneLog(a', l, recvd + [f], sent)
  {
    Snoc(recvd, f);
  }
}
