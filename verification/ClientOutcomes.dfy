/** What a frame comes to at the client, and what the end of a write does, said without the functions that do it.
    The frame may be anything; the client is any that a run reaches. */
module ClientOutcomes {
  import opened Protocol
  import opened CreditSpec
  import opened Frames
  import opened ServerSpec
  import opened ClientSpec
  import opened ClientLogs
  import opened System
  import opened Runs

  lemma LiveNotClosed(channels: nat, l: Limits, evs: seq<SysEvent>, t: Sys, i: nat)
    requires Reached(channels, l, evs, t) && i in t.client.streams
    ensures i !in t.client.closed
  {
    ReachedInv(channels, l, evs, t);
  }

  // ----- which frames fail the connection -----

  /** The verdict on a request frame of a live stream that arrived on the stream's channel. */
  function LiveVerdict(cl: Client, c: nat, f: Frame): Option<ProtocolError>
    requires !f.ChannelCredit? && f.streamId in cl.streams
  {
    var st := cl.streams[f.streamId];
    match f
    case RequestData(i, seqNo, flags, payload) =>
      var n := |payload|;
      if flags != 0 then Some(UnexpectedFlags)
      else if n > Get(cl.credit.inStream, Key(i, RequestBody)) || n > Get(cl.credit.inChannel, c) then Some(CreditViolation)
      else if seqNo != st.recvNext then Some(SeqDiscontinuity)
      else None
    case RequestEnd(_, kind, lastSeq) =>
      if kind != RequestBody then Some(EndKindMismatch)
      else if lastSeq + 1 != st.recvNext then Some(LastSeqMismatch)
      else None
    case _ => None
  }

  lemma DispatchedVerdict(cl: Client, c: nat, f: Frame)
    requires (f.RequestData? || f.RequestEnd? || f.RequestAbort?) && f.streamId in cl.streams
    ensures DispatchRequestFrame(cl, c, f).error == LiveVerdict(cl, c, f)
  {
  }

  /** In every reached state: which frame fails the connection at the client, and with what. */
  lemma VerdictExactly(channels: nat, l: Limits, evs: seq<SysEvent>, t: Sys, c: nat, f: Frame)
    requires Reached(channels, l, evs, t)
    ensures ReceiveFrame(t.client, l, c, f).error ==
            if f.ChannelCredit? || f.StreamCredit? then None
            else if IsResponse(f) then Some(WrongDirection)
            else if f.streamId in t.client.streams then
              if f.RequestStart? then Some(DuplicateStream)
              else if t.client.streams[f.streamId].channel != c then Some(WrongChannel)
              else LiveVerdict(t.client, c, f)
            else if f.RequestStart? || f.streamId in t.client.closed then None
            else Some(UnknownStream)
  {
    if !f.ChannelCredit? && f.streamId in t.client.streams {
      LiveNotClosed(channels, l, evs, t, f.streamId);
      if f.RequestData? || f.RequestEnd? || f.RequestAbort? {
        DispatchedVerdict(t.client, c, f);
      }
    }
  }

  // ----- what an accepted frame comes to -----

  /** Every stream but i is as it was, and so is every write in progress on other channels than c. */
  ghost predicate OthersKept(cl: Client, cl': Client, i: nat, c: nat) {
    && (forall j :: j != i ==> (j in cl'.streams <==> j in cl.streams) && (j in cl.streams ==> cl'.streams[j] == cl.streams[j]))
    && (forall d :: d != c ==> (d in cl'.busy <==> d in cl.busy) && (d in cl.busy ==> cl'.busy[d] == cl.busy[d]))
  }

  /** A stream the client gives up, with notice. */
  ghost predicate GaveUp(cl: Client, r: ClientReply, i: nat) {
    i !in r.client.streams && i in r.client.closed && r.out == [ResponseAbort(i)]
  }

  /** A first RequestStart makes a stream with or without a writer, as the frame says, and full windows both ways. */
  lemma StartOutcome(cl: Client, l: Limits, c: nat, i: nat, hasBody: bool)
    requires i !in cl.streams && i !in cl.closed
    ensures var r := ReceiveFrame(cl, l, c, RequestStart(i, hasBody)); var cr := r.client.credit;
            && i in r.client.streams && r.client.streams[i].channel == c && r.client.streams[i].hasBody == hasBody
            && !r.client.streams[i].responding && r.client.streams[i].recvNext == r.client.streams[i].sendNext == 0
            && Get(cr.outStream, Key(i, ResponseBody)) == Get(cr.inStream, Key(i, RequestBody)) == l.streamCreditBytes
            && cr.outChannel == cl.credit.outChannel && cr.inChannel == cl.credit.inChannel
            && OthersKept(cl, r.client, i, c) && r.client.busy == cl.busy && r.out == []
  {
  }

  /** A frame of a stream that is remembered as closed changes nothing but the count of bytes dropped. */
  lemma StaleOutcome(cl: Client, l: Limits, c: nat, f: Frame)
    requires !IsResponse(f) && !f.ChannelCredit? && !f.StreamCredit? && f.streamId in cl.closed
    ensures var r := ReceiveFrame(cl, l, c, f); r.out == [] && r.client == cl.(stale := r.client.stale)
  {
  }

  lemma WriterOutcome(cl: Client, l: Limits, c: nat, f: Frame, r: ClientReply)
    requires f.RequestData? && f.streamId in cl.streams && f.streamId !in cl.closed && r == ReceiveFrame(cl, l, c, f) && r.error == None
    requires cl.streams[f.streamId].hasBody
    ensures var i := f.streamId;
            && i in r.client.streams && r.client.streams[i] == cl.streams[i].(recvNext := cl.streams[i].recvNext + 1)
            && c in r.client.busy && r.client.busy[c] == Writing(i, f.payload) && r.out == []
    ensures OthersKept(cl, r.client, f.streamId, c)
  {
  }

  lemma GivenUp(cl: Client, i: nat, c: nat, r: ClientReply)
    requires i in cl.streams && r == AbortResponse(cl, i, c)
    ensures GaveUp(cl, r, i) && OthersKept(cl, r.client, i, c) && r.error == None
    ensures r.client.busy == cl.busy && r.client.closedWriters == cl.closedWriters && r.client.written == cl.written
  {
  }

  /** Nothing but stream i, and what is not kept per stream, differs between cl and cl1. */
  lemma KeptThrough(cl: Client, cl1: Client, cl2: Client, i: nat, c: nat)
    requires OthersKept(cl, cl1, i, c) && OthersKept(cl1, cl2, i, c)
    ensures OthersKept(cl, cl2, i, c)
  {
  }

  lemma RefusedData(cl: Client, l: Limits, c: nat, f: Frame, r: ClientReply, cl1: Client)
    requires f.RequestData? && f.streamId in cl.streams && f.streamId !in cl.closed && r == ReceiveFrame(cl, l, c, f) && r.error == None
    requires !cl.streams[f.streamId].hasBody
    requires cl1 == AcceptRequestData(cl, f.streamId, c, |f.payload|).(lost := Bump(cl.lost, c, |f.payload|))
    ensures r == AbortResponse(cl1, f.streamId, c) && OthersKept(cl, cl1, f.streamId, c) && cl1.busy == cl.busy
    ensures f.streamId in cl1.streams
  {
  }

  lemma NoWriterOutcome(cl: Client, l: Limits, c: nat, f: Frame, r: ClientReply)
    requires f.RequestData? && f.streamId in cl.streams && f.streamId !in cl.closed && r == ReceiveFrame(cl, l, c, f) && r.error == None
    requires !cl.streams[f.streamId].hasBody
    ensures GaveUp(cl, r, f.streamId) && r.client.busy == cl.busy && OthersKept(cl, r.client, f.streamId, c)
  {
    var cl1 := AcceptRequestData(cl, f.streamId, c, |f.payload|).(lost := Bump(cl.lost, c, |f.payload|));
    RefusedData(cl, l, c, f, r, cl1);
    GivenUp(cl1, f.streamId, c, r);
    KeptThrough(cl, cl1, r.client, f.streamId, c);
  }

  /** Accepted data goes to the stream's writer, and its channel waits for that; a stream without one is given up. */
  lemma DataOutcome(channels: nat, l: Limits, evs: seq<SysEvent>, t: Sys, c: nat, f: Frame)
    requires Reached(channels, l, evs, t) && f.RequestData? && f.streamId in t.client.streams
    requires ReceiveFrame(t.client, l, c, f).error == None
    ensures var i, r := f.streamId, ReceiveFrame(t.client, l, c, f);
            && (if t.client.streams[i].hasBody then
                  && i in r.client.streams && r.client.streams[i] == t.client.streams[i].(recvNext := t.client.streams[i].recvNext + 1)
                  && c in r.client.busy && r.client.busy[c] == Writing(i, f.payload) && r.out == []
                else GaveUp(t.client, r, i) && r.client.busy == t.client.busy)
            && OthersKept(t.client, r.client, i, c)
  {
    LiveNotClosed(channels, l, evs, t, f.streamId);
    if t.client.streams[f.streamId].hasBody {
      WriterOutcome(t.client, l, c, f, ReceiveFrame(t.client, l, c, f));
    } else {
      NoWriterOutcome(t.client, l, c, f, ReceiveFrame(t.client, l, c, f));
    }
  }

  lemma EndRecorded(cl: Client, l: Limits, c: nat, f: Frame, r: ClientReply, cl1: Client)
    requires f.RequestEnd? && f.streamId in cl.streams && f.streamId !in cl.closed && r == ReceiveFrame(cl, l, c, f) && r.error == None
    requires cl1 == EndRequest(cl, f.streamId, f.lastSeq)
    ensures var i := f.streamId;
            && r == (if cl.streams[i].hasBody && i in cl.closedWriters then AbortResponse(cl1, i, c) else ClientReply(cl1, c, [], None))
            && i in cl1.streams && (i in cl1.closedWriters <==> cl.streams[i].hasBody || i in cl.closedWriters)
    ensures OthersKept(cl, cl1, f.streamId, c) && cl1.busy == cl.busy && cl1.written == cl.written
  {
  }

  /** An accepted REQUEST_END closes the writer; where it is closed already, the stream is given up. */
  lemma EndOutcome(channels: nat, l: Limits, evs: seq<SysEvent>, t: Sys, c: nat, f: Frame)
    requires Reached(channels, l, evs, t) && f.RequestEnd? && f.streamId in t.client.streams
    requires ReceiveFrame(t.client, l, c, f).error == None
    ensures var i, r := f.streamId, ReceiveFrame(t.client, l, c, f);
            var again := t.client.streams[i].hasBody && i in t.client.closedWriters;
            && (i in r.client.closedWriters <==> t.client.streams[i].hasBody || i in t.client.closedWriters)
            && (if again then GaveUp(t.client, r, i) else i in r.client.streams && r.out == [])
            && OthersKept(t.client, r.client, i, c) && r.client.busy == t.client.busy && r.client.written == t.client.written
  {
    LiveNotClosed(channels, l, evs, t, f.streamId);
    var i, r := f.streamId, ReceiveFrame(t.client, l, c, f);
    var cl1 := EndRequest(t.client, i, f.lastSeq);
    EndRecorded(t.client, l, c, f, r, cl1);
    if t.client.streams[i].hasBody && i in t.client.closedWriters {
      GivenUp(cl1, i, c, r);
      KeptThrough(t.client, cl1, r.client, i, c);
    }
  }

  /** RequestAbort drops the stream without an answer. */
  lemma AbortOutcome(channels: nat, l: Limits, evs: seq<SysEvent>, t: Sys, c: nat, i: nat)
    requires Reached(channels, l, evs, t) && i in t.client.streams && t.client.streams[i].channel == c
    ensures var r := ReceiveFrame(t.client, l, c, RequestAbort(i));
            && i !in r.client.streams && i in r.client.closed && r.out == [] && r.error == None
            && OthersKept(t.client, r.client, i, c) && r.client.busy == t.client.busy && r.client.closedWriters == t.client.closedWriters
  {
    LiveNotClosed(channels, l, evs, t, i);
  }

  // ----- the end of a write -----

  /** A write that succeeds adds exactly its payload to what the writer took and returns its credit, also when the
      stream is gone. Only an empty payload costs a live stream its life. */
  lemma WriteOutcome(cl: Client, l: Limits, c: nat, r: ClientReply)
    requires c in cl.busy && r == ClientStep(cl, l, WriteDone(c))
    ensures var i, payload := cl.busy[c].stream, cl.busy[c].payload;
            && c !in r.client.busy && OthersKept(cl, r.client, i, c) && r.error == None && r.channel == c
            && GetBytes(r.client.written, i) == GetBytes(cl.written, i) + payload
            && (if payload != [] then
                  && r.client.streams == cl.streams
                  && r.out == [StreamCredit(i, RequestBody, |payload|), ChannelCredit(|payload|)]
                else if i in cl.streams then GaveUp(cl, r, i)
                else r.client.streams == cl.streams && r.out == [])
  {
    var i, payload := cl.busy[c].stream, cl.busy[c].payload;
    if payload == [] && i in cl.streams {
      var cl1 := cl.(busy := cl.busy - {c}, written := cl.written[i := GetBytes(cl.written, i) + payload]);
      GivenUp(cl1, i, c, r);
      KeptThrough(cl, cl1, r.client, i, c);
    }
  }

  /** A write that fails costs its stream its life and returns no credit. */
  lemma WriteFailure(cl: Client, l: Limits, c: nat, r: ClientReply)
    requires c in cl.busy && r == ClientStep(cl, l, WriteFail(c))
    ensures var i := cl.busy[c].stream;
            && c !in r.client.busy && OthersKept(cl, r.client, i, c) && r.error == None && r.channel == c
            && r.client.written == cl.written && r.client.credit.inChannel == cl.credit.inChannel
            && (if i in cl.streams then GaveUp(cl, r, i) else r.client.streams == cl.streams && r.out == [])
  {
  }
}
