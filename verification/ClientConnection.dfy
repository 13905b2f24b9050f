/** ClientConnection as the source writes it: handlers that update the connection's registry, credit
    and counters in place. Each is proved against its function in ClientSpec. A stream's record is a
    value in the registry. */
module ClientConnection {
  import opened Protocol
  import opened CreditSpec
  import opened Frames
  import opened ServerSpec
  import opened ClientSpec
  import opened CreditController
  import opened Wakeups
  import opened StreamRegistry

  /** The streams of order cleaned up one after the other. */
  function CleanupAll(cl: Client, order: seq<nat>): Client {
    if order == [] then cl
    else CleanupClient(CleanupAll(cl, order[..|order| - 1]), order[|order| - 1])
  }

  class ClientConnection {
    const limits: Limits
    const credit: CreditController
    const registry: StreamRegistry<ClientStream>
    var writing: map<nat, Writing>
    var closed: bool
    ghost var homes: map<nat, nat>
    ghost var written: map<nat, bytes>
    var closedWriters: set<nat>
    ghost var read: map<nat, bytes>
    ghost var stale: map<nat, nat>
    ghost var lost: map<nat, nat>

    ghost function State(): Client
      reads this, credit, registry
    {
      Client(registry.streams, registry.closedStreamIds, credit.Windows(), writing, homes, written,
             closedWriters, read, stale, lost)
    }

    ghost predicate Valid()
      reads credit
    {
      credit.limits == limits
    }

    /** A connection whose data channels are all open. */
    constructor (l: Limits, dataChannels: nat)
      ensures Valid() && fresh(credit) && fresh(registry) && limits == l && !closed
      ensures State() == InitClient(dataChannels, l)
    {
      limits := l;
      credit := new CreditController(l);
      registry := new StreamRegistry<ClientStream>();
      writing, closed := map[], false;
      homes, written, closedWriters, read, stale, lost := map[], map[], {}, map[], map[], map[];
      new;
      registry.ResetForNewTunnel();
      var _ := credit.ResetWindows(dataChannels);
    }

    method CleanupStream(i: nat)
      requires Valid()
      modifies credit, registry
      ensures State() == CleanupClient(old(State()), i)
    {
      var stream := registry.DeleteStream(i);
      if stream.None? {
        assert registry.streams == old(registry.streams);
        return;
      }
      var _ := credit.DeleteStream(i);
    }

    /** The server is told only about a stream that was still live. */
    method AbortResponseStream(i: nat, c: nat) returns (out: seq<Frame>)
      requires Valid()
      modifies credit, registry
      ensures var r := AbortResponse(old(State()), i, c); State() == r.client && out == r.out
    {
      var shouldNotifyServer := i in registry.streams;
      CleanupStream(i);
      out := if shouldNotifyServer then [ResponseAbort(i)] else [];
    }

    method HandleRequestStart(c: nat, i: nat, hasBody: bool) returns (error: Option<ProtocolError>)
      requires Valid()
      modifies this`homes, this`closedWriters, credit, registry
      ensures var r := StartRequest(old(State()), limits, c, i, hasBody);
              State() == r.client && r.out == [] && error == r.error
    {
      if i in registry.streams {
        return Some(DuplicateStream);
      }
      registry.SetStream(i, ClientStream(c, hasBody, 0, None, 0, false, false, None));
      credit.SeedStream(i);
      homes := homes[i := c];
      closedWriters := closedWriters - {i};
      error := None;
    }

    /** Leaves a body write in progress on c, or aborts a stream that has no request writer. */
    method HandleRequestData(i: nat, c: nat, seqNo: nat, flags: nat, payload: bytes)
      returns (out: seq<Frame>, error: Option<ProtocolError>)
      requires Valid() && i in registry.streams
      modifies this`writing, this`lost, credit, registry
      ensures var r := ReceiveRequestData(old(State()), i, c, seqNo, flags, payload);
              State() == r.client && out == r.out && error == r.error
    {
      out, error := [], None;
      if flags != FLAG_NONE {
        return [], Some(UnexpectedFlags);
      }
      var ok := credit.ConsumeWindows(i, c, RequestBody, |payload|);
      if !ok {
        return [], Some(CreditViolation);
      }
      var st := registry.streams[i];
      if seqNo != st.recvNext {
        return [], Some(SeqDiscontinuity);
      }
      registry.PutStream(i, st.(recvNext := st.recvNext + 1));
      assert State() == AcceptRequestData(old(State()), i, c, |payload|);
      out := WriteOrAbort(i, c, st.hasBody, payload);
    }

    method WriteOrAbort(i: nat, c: nat, hasBody: bool, payload: bytes) returns (out: seq<Frame>)
      requires Valid()
      modifies this`writing, this`lost, credit, registry
      ensures hasBody ==> out == [] && State() == old(State()).(busy := old(writing)[c := Writing(i, payload)])
      ensures !hasBody ==>
                var r := AbortResponse(old(State()).(lost := Bump(old(lost), c, |payload|)), i, c);
                State() == r.client && out == r.out
    {
      if hasBody {
        writing := writing[c := Writing(i, payload)];
        out := [];
      } else {
        lost := Bump(lost, c, |payload|);
        out := AbortResponseStream(i, c);
      }
    }

    method HandleRequestEnd(i: nat, c: nat, kind: DataKind, lastSeq: int)
      returns (out: seq<Frame>, error: Option<ProtocolError>)
      requires Valid() && i in registry.streams
      modifies this`closedWriters, credit, registry
      ensures var r := ReceiveRequestEnd(old(State()), i, c, kind, lastSeq);
              State() == r.client && r.out == out && error == r.error
    {
      if kind != RequestBody {
        return [], Some(EndKindMismatch);
      }
      var st := registry.streams[i];
      if lastSeq != st.recvNext - 1 {
        return [], Some(LastSeqMismatch);
      }
      registry.PutStream(i, st.(endSeq := Some(lastSeq)));
      out, error := [], None;
      if st.hasBody {
        out := CloseWriter(i, c);
      }
    }

    /** requestWriter.close(), which rejects on a closed writer. */
    method CloseWriter(i: nat, c: nat) returns (out: seq<Frame>)
      requires Valid()
      modifies this`closedWriters, credit, registry
      ensures i !in old(closedWriters) ==> out == [] && State() == old(State()).(closedWriters := old(closedWriters) + {i})
      ensures i in old(closedWriters) ==> var r := AbortResponse(old(State()), i, c); State() == r.client && out == r.out
    {
      if i in closedWriters {
        out := AbortResponseStream(i, c);
      } else {
        closedWriters := closedWriters + {i};
        out := [];
      }
    }

    method DispatchStreamFrame(c: nat, f: Frame) returns (out: seq<Frame>, error: Option<ProtocolError>)
      requires Valid() && !f.ChannelCredit? && f.streamId in registry.streams
      modifies this`writing, this`lost, this`closedWriters, credit, registry
      ensures var r := DispatchRequestFrame(old(State()), c, f);
              State() == r.client && out == r.out && error == r.error
    {
      out, error := [], None;
      match f {
        case RequestData(i, seqNo, flags, payload) =>
          out, error := HandleRequestData(i, c, seqNo, flags, payload);
        case RequestEnd(i, kind, lastSeq) =>
          out, error := HandleRequestEnd(i, c, kind, lastSeq);
        case RequestAbort(i) =>
          CleanupStream(i);
        case _ =>
          error := Some(WrongDirection);
      }
    }

    /** In the order of some listing of the live streams. */
    method AbortAllStreams() returns (ghost order: seq<nat>)
      requires Valid()
      modifies credit, registry
      ensures State() == CleanupAll(old(State()), order)
      ensures registry.streams == map[] && forall i :: i in order <==> i in old(registry.streams)
    {
      order := [];
      while registry.streams.Keys != {}
        invariant State() == CleanupAll(old(State()), order)
        invariant forall i :: i in old(registry.streams) <==> i in order || i in registry.streams
        decreases |registry.streams|
      {
        var i :| i in registry.streams;
        assert (order + [i])[..|order|] == order;
        ghost var before := registry.streams;
        CleanupStream(i);
        assert registry.streams.Keys == before.Keys - {i};
        MapShrinks(before, i);
        order := order + [i];
      }
    }

    method Close() returns (woken: set<Parking>)
      requires Valid()
      modifies this`closed, credit, registry
      ensures closed
      ensures if old(closed) then State() == old(State())
              else exists order: seq<nat> :: State() == CleanupAll(old(State()), order)
      ensures !old(closed) ==> registry.streams == map[] && credit.waiters == {}
    {
      if closed {
        return {};
      }
      closed := true;
      ghost var order := AbortAllStreams();
      woken := credit.WakeWaiters();
      assert State() == CleanupAll(old(State()), order);
    }

    /** handleDataMessage for a decoded frame of channel c; an error closes the connection. */
    method HandleDataMessage(c: nat, f: Frame) returns (out: seq<Frame>, error: Option<ProtocolError>)
      requires Valid() && !closed
      modifies this, credit, registry
      ensures var r := ReceiveFrame(old(State()), limits, c, f);
              && error == r.error
              && (error.None? ==> State() == r.client && out == r.out && !closed)
              && (error.Some? ==>
                    && out == [] && closed && registry.streams == map[]
                    && exists order: seq<nat> :: State() == CleanupAll(r.client, order))
    {
      out, error := [], None;
      if IsResponse(f) {
        error := Some(WrongDirection);
      } else if f.ChannelCredit? {
        var _ := credit.ApplyChannelCredit(c, f.amount);
      } else if f.StreamCredit? {
        var _ := credit.ApplyStreamCredit(f.streamId, f.kind, f.amount);
      } else if f.streamId in registry.closedStreamIds {
        stale := Bump(stale, c, DataBytes(f));
      } else if f.RequestStart? {
        error := HandleRequestStart(c, f.streamId, f.hasBody);
      } else if f.streamId !in registry.streams {
        error := Some(UnknownStream);
      } else if registry.streams[f.streamId].channel != c {
        error := Some(WrongChannel);
      } else {
        out, error := DispatchStreamFrame(c, f);
      }
      assert State() == ReceiveFrame(old(State()), limits, c, f).client;
      if error.Some? {
        var _ := Close();
        out := [];
      }
    }

    /** The body write in progress on c was taken by the local service. */
    method FinishWriting(c: nat) returns (out: seq<Frame>)
      requires Valid() && c in writing
      modifies this`writing, this`written, credit, registry
      ensures var r := FinishWrite(old(State()), c); State() == r.client && out == r.out
    {
      var i, payload := writing[c].stream, writing[c].payload;
      writing := writing - {c};
      written := written[i := GetBytes(written, i) + payload];
      out := credit.GrantWindows(i, c, RequestBody, |payload|);
      if payload == [] {
        out := AbortResponseStream(i, c);
      }
    }

    method FailWriting(c: nat) returns (out: seq<Frame>)
      requires Valid() && c in writing
      modifies this`writing, this`lost, credit, registry
      ensures var r := FailWrite(old(State()), c); State() == r.client && out == r.out
    {
      var w := writing[c];
      writing := writing - {c};
      lost := Bump(lost, c, |w.payload|);
      out := AbortResponseStream(w.stream, c);
    }

    /** One turn of sendDataPayload: look for credit under this ticket, then send and charge. */
    method SendDataChunk(i: nat, ticket: nat) returns (verdict: Verdict, out: seq<Frame>)
      requires Valid() && i in registry.streams && registry.streams[i].rest.Some?
      modifies credit, registry
      ensures verdict == Ready <==>
                HasOutbound(old(credit.Windows()), i, old(registry.streams)[i].channel, ResponseBody,
                            |Chunk(old(registry.streams)[i].rest.value, limits.maxFrameBytes)|)
      ensures verdict == Ready ==> var r := SendChunk(old(State()), limits, i); State() == r.client && out == r.out
      ensures verdict != Ready ==> State() == old(State()) && out == [] && verdict == MustWait
    {
      var st := registry.streams[i];
      var chunk := Chunk(st.rest.value, limits.maxFrameBytes);
      verdict := credit.LookForCredit(Parking(ticket, Waiter(i, st.channel, ResponseBody, |chunk|)), true);
      if verdict != Ready {
        return verdict, [];
      }
      var sent;
      out, sent := PostDataChunk(i);
      assert sent;
    }

    /** The second half of such a turn, when others may have run since the look: the frame goes out first,
        and ok is false when the decrement throws. */
    method PostDataChunk(i: nat) returns (out: seq<Frame>, ok: bool)
      requires Valid() && i in registry.streams && registry.streams[i].rest.Some?
      modifies credit, registry
      ensures var st := old(registry.streams)[i]; var chunk := Chunk(st.rest.value, limits.maxFrameBytes);
              var charged := DecrementOutbound(old(credit.Windows()), i, st.channel, ResponseBody, |chunk|);
              && out == [ResponseData(i, st.sendNext, FLAG_NONE, chunk)] && ok == charged.ok
              && State() == old(State()).(
                   credit := charged.credit,
                   streams := old(registry.streams)[i := st.(sendNext := st.sendNext + 1,
                                                             rest := if ok then AfterChunk(st.rest.value, limits.maxFrameBytes) else st.rest)])
    {
      var st := registry.streams[i];
      var chunk := Chunk(st.rest.value, limits.maxFrameBytes);
      out := [ResponseData(i, st.sendNext, FLAG_NONE, chunk)];
      registry.PutStream(i, st.(sendNext := st.sendNext + 1));
      ok := credit.DecrementWindows(i, st.channel, ResponseBody, |chunk|);
      if ok {
        registry.PutStream(i, registry.streams[i].(rest := AfterChunk(st.rest.value, limits.maxFrameBytes)));
      }
    }

    /** The upstream response is exhausted: announce the last sequence number and forget the stream. */
    method SendResponseEnd(i: nat) returns (out: seq<Frame>)
      requires Valid() && ClientEnabled(State(), limits, UpstreamEnd(i))
      modifies credit, registry
      ensures var r := ClientStep(old(State()), limits, UpstreamEnd(i)); State() == r.client && out == r.out
    {
      out := [ResponseEnd(i, ResponseBody, registry.streams[i].sendNext - 1)];
      CleanupStream(i);
    }
  }

  lemma MapShrinks<T>(m: map<nat, T>, i: nat)
    requires i in m
    ensures |m - {i}| < |m|
  {
    assert (m - {i}).Keys == m.Keys - {i};
    assert |(m - {i}).Keys| == |m - {i}| && |m.Keys| == |m|;
  }
}
