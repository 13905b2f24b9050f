/** The server's bookkeeping with exact subtraction instead of Math.max(0, ...): None where a count would
    go below zero. */
module Clamps {
  import opened Protocol
  import opened CreditSpec
  import opened TombstoneSpec
  import opened Frames
  import opened ServerSpec
  import opened ServerSafety
  import opened ServerOps

  function Minus(a: nat, b: nat): Option<nat> {
    if b <= a then Some(a - b) else None
  }

  function ExactCleanup(s: Server, i: nat): Option<Server> {
    if i !in s.streams then Some(s)
    else
      var st := s.streams[i];
      match Minus(s.pendingDataBytes, st.pendingBytes)
      case None => None
      case Some(left) =>
        Some(s.(streams := s.streams - {i}, pendingDataBytes := left, credit := Delete(s.credit, i),
                closed := Remember(s.closed, i), lost := Bump(s.lost, st.channel, st.pendingBytes)))
  }

  /** finishStreamDirection after a delivery. */
  function ExactFinish(s: Server, i: nat): Option<Server>
    requires i in s.streams
  {
    var st := s.streams[i];
    if st.recvEnd.None? || (st.recvEnd.value != -1 && st.recvNext <= st.recvEnd.value) then Some(s)
    else ExactCleanup(s, i)
  }

  /** One turn of the flush loop. */
  function ExactHead(s: Server, i: nat): (r: Option<Reply>)
    requires CanFlush(s, i)
    ensures r.Some? ==> QueueLength(r.value.server, i) < QueueLength(s, i)
  {
    var st := s.streams[i];
    var payload := st.pending[0];
    match ExactFinish(Enqueued(s, i, payload), i)
    case None => None
    case Some(u) =>
      var out := GrantFrames(i, ResponseBody, |payload|);
      if i !in u.streams then Some(Reply(u, st.channel, out, None))
      else
        match Minus(u.streams[i].pendingBytes, |payload|)
        case None => None
        case Some(left) =>
          match Minus(u.pendingDataBytes, |payload|)
          case None => None
          case Some(total) =>
            Some(Reply(u.(streams := u.streams[i := u.streams[i].(pending := u.streams[i].pending[1..], pendingBytes := left)],
                          pendingDataBytes := total),
                       st.channel, out, None))
  }

  function ExactFlush(s: Server, i: nat): Option<Reply>
    requires i in s.streams
    decreases QueueLength(s, i)
  {
    if !CanFlush(s, i) then Some(Reply(s, s.streams[i].channel, [], None))
    else
      match ExactHead(s, i)
      case None => None
      case Some(r) =>
        if i !in r.server.streams then Some(r)
        else
          match ExactFlush(r.server, i)
          case None => None
          case Some(r') => Some(Reply(r'.server, r.channel, r.out + r'.out, None))
  }

  /** The head is covered by both counts. */
  ghost predicate HeadFits(s: Server, i: nat)
    requires CanFlush(s, i)
  {
    s.streams[i].recvEnd == None && |s.streams[i].pending[0]| <= s.streams[i].pendingBytes <= s.pendingDataBytes
  }

  lemma SafeHeadFits(s: Server, l: Limits, i: nat)
    requires CoreSafe(s, l) && CanFlush(s, i)
    ensures HeadFits(s, i)
  {
    StreamBooks(s, l, i);
    ConcatHead(s.streams[i].pending);
  }

  lemma FittingHeadIsExact(s: Server, i: nat)
    requires CanFlush(s, i) && HeadFits(s, i)
    ensures ExactHead(s, i) == Some(FlushHead(s, i))
  {
  }

  lemma HeadIsExact(s: Server, l: Limits, i: nat)
    requires CoreSafe(s, l) && CanFlush(s, i)
    ensures ExactHead(s, i) == Some(FlushHead(s, i))
  {
    SafeHeadFits(s, l, i);
    FittingHeadIsExact(s, i);
  }

  /** No turn of a flush clamps. */
  lemma {:induction false} FlushIsExact(s: Server, l: Limits, i: nat)
    requires CoreSafe(s, l) && i in s.streams
    ensures ExactFlush(s, i) == Some(FlushPending(s, i))
    decreases QueueLength(s, i)
  {
    if CanFlush(s, i) {
      HeadIsExact(s, l, i);
      FlushHeadSafe(s, l, i);
      FlushIsExact(FlushHead(s, i).server, l, i);
    }
  }

  /** The flushes that steps run: after RESPONSE_START, and with whatever room the public body has. */
  lemma StepFlushesExact(s: Server, l: Limits, i: nat, room: nat)
    requires CoreSafe(s, l) && i in s.streams
    ensures ExactFlush(MarkStarted(s, i), i) == Some(FlushPending(MarkStarted(s, i), i))
    ensures ExactFlush(WithRoom(s, i, room), i) == Some(FlushPending(WithRoom(s, i, room), i))
  {
    TouchSafe(s, l, i, s.streams[i].(started := true));
    TouchSafe(s, l, i, s.streams[i].(room := Some(room)));
    FlushIsExact(MarkStarted(s, i), l, i);
    FlushIsExact(WithRoom(s, i, room), l, i);
  }

  /** The cleanup of a stream, also when its queue overflows. */
  lemma CleanupIsExact(s: Server, l: Limits, i: nat, c: nat, n: nat)
    requires CoreSafe(s, l) && i in s.streams
    ensures ExactCleanup(s, i) == Some(CleanupStream(s, i))
    ensures var u := AcceptData(s, i, c, n); var v := u.(lost := Bump(u.lost, c, n)); ExactCleanup(v, i) == Some(CleanupStream(v, i))
  {
    StreamBooks(s, l, i);
  }
}
