/** The client's registry: live streams by id, and a bounded memory of closed ids. */
module StreamRegistry {
  import opened Protocol
  import opened TombstoneSpec
  import opened TombstoneLemmas

  class StreamRegistry<T> {
    var streams: map<nat, T>
    var closedStreamIds: seq<nat>

    constructor ()
      ensures streams == map[] && closedStreamIds == []
    {
      streams, closedStreamIds := map[], [];
    }

    method ResetForNewTunnel()
      modifies this
      ensures streams == map[] && closedStreamIds == []
    {
      streams, closedStreamIds := map[], [];
    }

    method SetStream(id: nat, stream: T)
      modifies this
      ensures streams == old(streams)[id := stream]
      ensures closedStreamIds == Forget(old(closedStreamIds), id)
    {
      streams := streams[id := stream];
      closedStreamIds := Forget(closedStreamIds, id);
    }

    /** A change of the live record of id. */
    method PutStream(id: nat, stream: T)
      requires id in streams
      modifies this`streams
      ensures streams == old(streams)[id := stream]
    {
      streams := streams[id := stream];
    }

    method DeleteStream(id: nat) returns (stream: Option<T>)
      modifies this
      ensures stream == if id in old(streams) then Some(old(streams)[id]) else None
      ensures streams == old(streams) - {id}
      ensures closedStreamIds == if id in old(streams) then Remember(old(closedStreamIds), id) else old(closedStreamIds)
    {
      if id !in streams {
        assert streams - {id} == streams;
        return None;
      }
      stream := Some(streams[id]);
      streams := streams - {id};
      closedStreamIds := Forget(closedStreamIds, id) + [id];
      if |closedStreamIds| > MAX_REMEMBERED_CLOSED_STREAMS {
        closedStreamIds := closedStreamIds[1..];
      }
    }
  }

  // ----- any sequence of calls -----

  datatype Op = Open(id: nat) | Close(id: nat)

  datatype Memory = Memory(live: set<nat>, closed: seq<nat>)

  /** The registry after ops, as SetStream and DeleteStream change it. */
  function MemoryAfter(ops: seq<Op>): Memory {
    if ops == [] then Memory({}, [])
    else
      var m := MemoryAfter(ops[..|ops| - 1]);
      match ops[|ops| - 1]
      case Open(i) => Memory(m.live + {i}, Forget(m.closed, i))
      case Close(i) => if i in m.live then Memory(m.live - {i}, Remember(m.closed, i)) else m
  }

  /** What the operations mean, without any list: call k closed its stream for good. */
  predicate LiveAfter(ops: seq<Op>, i: nat) {
    exists k :: 0 <= k < |ops| && ops[k] == Open(i) && forall j :: k < j < |ops| ==> ops[j] != Close(i)
  }

  predicate FinalClose(ops: seq<Op>, k: nat) {
    k < |ops| && ops[k].Close? && LiveAfter(ops[..k], ops[k].id) && forall j :: k < j < |ops| ==> ops[j] != Open(ops[k].id)
  }

  /** Ids closed for good among the first n calls, in the order of those closes. */
  function ClosedHistory(ops: seq<Op>, n: nat): seq<nat>
    requires n <= |ops|
  {
    if n == 0 then []
    else ClosedHistory(ops, n - 1) + if FinalClose(ops, n - 1) then [ops[n - 1].id] else []
  }

  lemma LiveSnoc(ops: seq<Op>, op: Op, i: nat)
    ensures LiveAfter(ops + [op], i) <==> op == Open(i) || (op != Close(i) && LiveAfter(ops, i))
  {
    var all := ops + [op];
    if op == Open(i) {
      assert all[|ops|] == Open(i);
    } else if op != Close(i) && LiveAfter(ops, i) {
      var k :| 0 <= k < |ops| && ops[k] == Open(i) && forall j :: k < j < |ops| ==> ops[j] != Close(i);
      assert all[k] == Open(i);
    }
    if LiveAfter(all, i) && op != Open(i) {
      var k :| 0 <= k < |all| && all[k] == Open(i) && forall j :: k < j < |all| ==> all[j] != Close(i);
      assert ops[k] == Open(i);
      assert all[|ops|] == op;
      assert forall j :: k < j < |ops| ==> ops[j] == all[j];
    }
  }

  lemma {:induction false} LiveMatches(ops: seq<Op>, i: nat)
    ensures i in MemoryAfter(ops).live <==> LiveAfter(ops, i)
  {
    if ops != [] {
      var n := |ops| - 1;
      LiveMatches(ops[..n], i);
      assert ops == ops[..n] + [ops[n]];
      LiveSnoc(ops[..n], ops[n], i);
    }
  }

  lemma FinalSnoc(ops: seq<Op>, op: Op, k: nat)
    requires k < |ops|
    ensures FinalClose(ops + [op], k) <==> FinalClose(ops, k) && op != Open(ops[k].id)
  {
    var all := ops + [op];
    assert all[..k] == ops[..k] && all[k] == ops[k] && all[|ops|] == op;
    assert forall j :: k < j < |ops| ==> all[j] == ops[j];
  }

  lemma ForgetSnoc(ids: seq<nat>, x: nat, i: nat)
    ensures Forget(ids + [x], i) == Forget(ids, i) + if x == i then [] else [x]
  {
    if ids != [] {
      assert (ids + [x])[1..] == ids[1..] + [x];
      ForgetSnoc(ids[1..], x, i);
    }
  }

  /** Reopening an id takes it out of the history; any other call leaves the earlier part alone. */
  lemma {:induction false} HistorySnoc(ops: seq<Op>, op: Op, n: nat)
    requires n <= |ops|
    ensures ClosedHistory(ops + [op], n) == if op.Open? then Forget(ClosedHistory(ops, n), op.id) else ClosedHistory(ops, n)
  {
    if n > 0 {
      HistorySnoc(ops, op, n - 1);
      FinalSnoc(ops, op, n - 1);
      assert (ops + [op])[n - 1] == ops[n - 1];
      if op.Open? {
        ForgetMaybe(ClosedHistory(ops, n - 1), ops[n - 1].id, op.id);
      }
    }
  }

  lemma ForgetMaybe(ids: seq<nat>, x: nat, i: nat)
    ensures Forget(ids + [x], i) == Forget(ids, i) + if x == i then [] else [x]
    ensures Forget(ids + [], i) == Forget(ids, i) + []
  {
    ForgetSnoc(ids, x, i);
    assert ids + [] == ids && Forget(ids, i) + [] == Forget(ids, i);
  }

  lemma LiveNotFinal(ops: seq<Op>, i: nat, k: nat)
    requires k < |ops| && LiveAfter(ops, i) && ops[k] == Close(i)
    ensures !FinalClose(ops, k)
  {
    var o :| 0 <= o < |ops| && ops[o] == Open(i) && forall j :: o < j < |ops| ==> ops[j] != Close(i);
    assert k < o && ops[o] == Open(ops[k].id);
  }

  /** A live id is not in the history. */
  lemma {:induction false} LiveNotClosed(ops: seq<Op>, i: nat, n: nat)
    requires n <= |ops| && LiveAfter(ops, i)
    ensures i !in ClosedHistory(ops, n)
  {
    if n > 0 {
      LiveNotClosed(ops, i, n - 1);
      if ops[n - 1] == Close(i) {
        LiveNotFinal(ops, i, n - 1);
      }
    }
  }

  /** history is older ++ kept: nothing newer than a remembered id is missing. */
  ghost predicate Newest(kept: seq<nat>, history: seq<nat>) {
    |kept| <= |history| && kept == history[|history| - |kept|..]
  }

  lemma NewestForget(kept: seq<nat>, history: seq<nat>, i: nat)
    requires Newest(kept, history) && NoDup(history)
    ensures Newest(Forget(kept, i), Forget(history, i))
  {
    var older := history[..|history| - |kept|];
    assert history == older + kept;
    ForgetConcat(older, kept, i);
  }

  lemma {:induction false} ForgetConcat(a: seq<nat>, b: seq<nat>, i: nat)
    ensures Forget(a + b, i) == Forget(a, i) + Forget(b, i)
  {
    if a == [] {
      assert a + b == b;
    } else {
      assert (a + b)[1..] == a[1..] + b;
      ForgetConcat(a[1..], b, i);
    }
  }

  lemma {:induction false} ForgetNoDup(ids: seq<nat>, i: nat)
    requires NoDup(ids)
    ensures NoDup(Forget(ids, i))
  {
    if ids != [] {
      ForgetNoDup(ids[1..], i);
      var rest := Forget(ids[1..], i);
      assert ids[0] !in ids[1..];
      assert ids[0] !in rest;
    }
  }

  lemma NewestRemember(kept: seq<nat>, history: seq<nat>, i: nat)
    requires Newest(kept, history) && NoDup(kept) && i !in history && |kept| <= MAX_REMEMBERED_CLOSED_STREAMS
    ensures Newest(Remember(kept, i), history + [i])
    ensures |Remember(kept, i)| == if |kept| < MAX_REMEMBERED_CLOSED_STREAMS then |kept| + 1 else |kept|
  {
    RememberFresh(kept, i);
  }

  /** The call does not reopen an id that was closed. */
  predicate NeverReopens(ops: seq<Op>) {
    forall j, k :: 0 <= j < k < |ops| && ops[j].Close? ==> ops[k] != Open(ops[j].id)
  }

  /** What the registry promises about the calls so far. */
  ghost predicate RemembersNewest(m: Memory, history: seq<nat>) {
    && NoDup(history)
    && Newest(m.closed, history)
    && |m.closed| <= MAX_REMEMBERED_CLOSED_STREAMS
    && forall i :: i in m.closed ==> i !in m.live
  }

  lemma OpenRemembers(m: Memory, h: seq<nat>, i: nat)
    requires RemembersNewest(m, h)
    ensures RemembersNewest(Memory(m.live + {i}, Forget(m.closed, i)), Forget(h, i))
    ensures |Forget(m.closed, i)| <= |m.closed|
  {
    NewestForget(m.closed, h, i);
    ForgetNoDup(h, i);
    forall k | k in Forget(m.closed, i) ensures k !in m.live + {i} {
    }
  }

  lemma CloseRemembers(m: Memory, h: seq<nat>, i: nat)
    requires RemembersNewest(m, h) && i in m.live && i !in h
    ensures RemembersNewest(Memory(m.live - {i}, Remember(m.closed, i)), h + [i])
    ensures |m.closed| == Min(MAX_REMEMBERED_CLOSED_STREAMS, |h|) ==>
              |Remember(m.closed, i)| == Min(MAX_REMEMBERED_CLOSED_STREAMS, |h + [i]|)
  {
    NewestRemember(m.closed, h, i);
    RememberFresh(m.closed, i);
  }

  /** After any sequence of calls, the remembered ids are distinct, at most 4096, not live, and are the
      newest part of the history of ids closed for good, ordered by their last close. */
  lemma {:induction false} RegistryRemembersNewest(ops: seq<Op>)
    ensures RemembersNewest(MemoryAfter(ops), ClosedHistory(ops, |ops|))
  {
    if ops != [] {
      var n := |ops| - 1;
      RegistryRemembersNewest(ops[..n]);
      HistoryAfterCall(ops[..n], ops[n]);
      assert ops == ops[..n] + [ops[n]];
      var m, h := MemoryAfter(ops[..n]), ClosedHistory(ops[..n], n);
      match ops[n]
      case Open(i) => OpenRemembers(m, h, i);
      case Close(i) => if i in m.live { CloseRemembers(m, h, i); }
    }
  }

  /** One more call: an effective close is appended, a reopening removed, anything else leaves the history. */
  lemma HistoryAfterCall(ops: seq<Op>, op: Op)
    ensures var h := ClosedHistory(ops, |ops|);
            ClosedHistory(ops + [op], |ops| + 1) ==
            match op
            case Open(i) => Forget(h, i)
            case Close(i) => if i in MemoryAfter(ops).live then h + [i] else h
    ensures op.Close? && op.id in MemoryAfter(ops).live ==> op.id !in ClosedHistory(ops, |ops|)
  {
    var n := |ops|;
    HistorySnoc(ops, op, n);
    LiveMatches(ops, op.id);
    assert (ops + [op])[..n] == ops && (ops + [op])[n] == op;
    if op.Close? && LiveAfter(ops, op.id) {
      LiveNotClosed(ops, op.id, n);
    }
  }

  /** When no closed id is ever reopened, exactly the newest 4096 of the history are remembered. */
  lemma {:induction false} RegistryForgetsOnlyOldest(ops: seq<Op>)
    requires NeverReopens(ops)
    ensures |MemoryAfter(ops).closed| == Min(MAX_REMEMBERED_CLOSED_STREAMS, |ClosedHistory(ops, |ops|)|)
  {
    if ops != [] {
      var n := |ops| - 1;
      var m, h := MemoryAfter(ops[..n]), ClosedHistory(ops[..n], n);
      NeverReopensPrefix(ops);
      RegistryForgetsOnlyOldest(ops[..n]);
      RegistryRemembersNewest(ops[..n]);
      HistoryAfterCall(ops[..n], ops[n]);
      assert ops == ops[..n] + [ops[n]];
      match ops[n]
      case Open(i) =>
        ForgetAbsent(h, i);
        ForgetAbsent(m.closed, i);
      case Close(i) => if i in m.live { CloseRemembers(m, h, i); }
    }
  }

  lemma NeverReopensPrefix(ops: seq<Op>)
    requires ops != [] && NeverReopens(ops)
    ensures NeverReopens(ops[..|ops| - 1])
    ensures ops[|ops| - 1].Open? ==> ops[|ops| - 1].id !in ClosedHistory(ops[..|ops| - 1], |ops| - 1)
  {
    var n := |ops| - 1;
    var before := ops[..n];
    assert forall k :: 0 <= k < n ==> before[k] == ops[k];
    if ops[n].Open? {
      NotClosedBefore(before, ops[n].id, n);
    }
  }

  lemma {:induction false} NotClosedBefore(ops: seq<Op>, i: nat, n: nat)
    requires n <= |ops| && forall j :: 0 <= j < |ops| ==> ops[j] != Close(i)
    ensures i !in ClosedHistory(ops, n)
  {
    if n > 0 {
      NotClosedBefore(ops, i, n - 1);
    }
  }
}
