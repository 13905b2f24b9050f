/** Measures of a frame log (what one endpoint has sent, or received, on a data channel) and the
    discipline an honest endpoint keeps on the frames of one stream.
    All measures recurse on the last frame, because logs grow at the end. */
module Frames {
  import opened Protocol

  function Concat(chunks: seq<bytes>): bytes {
    if chunks == [] then [] else Concat(chunks[..|chunks| - 1]) + chunks[|chunks| - 1]
  }

  lemma ConcatSnoc(chunks: seq<bytes>, x: bytes)
    ensures Concat(chunks + [x]) == Concat(chunks) + x
  {
    assert (chunks + [x])[..|chunks|] == chunks;
  }

  lemma {:induction false} ConcatHead(chunks: seq<bytes>)
    requires chunks != []
    ensures Concat(chunks) == chunks[0] + Concat(chunks[1..])
  {
    if |chunks| == 1 {
      assert chunks[..0] == [] && chunks[1..] == [];
    } else {
      var n := |chunks| - 1;
      ConcatHead(chunks[..n]);
      assert chunks[..n][1..] == chunks[1..][..n - 1];
    }
  }

  predicate IsData(f: Frame) {
    f.RequestData? || f.ResponseData?
  }

  predicate IsEnd(f: Frame) {
    f.RequestEnd? || f.ResponseEnd?
  }

  predicate IsAbort(f: Frame) {
    f.RequestAbort? || f.ResponseAbort?
  }

  predicate IsResponse(f: Frame) {
    f.ResponseStart? || f.ResponseData? || f.ResponseEnd? || f.ResponseAbort?
  }

  predicate Of(f: Frame, i: nat) {
    !f.ChannelCredit? && f.streamId == i
  }

  function DataBytes(f: Frame): nat {
    if IsData(f) then |f.payload| else 0
  }

  function Count(fs: seq<Frame>): nat {
    if fs == [] then 0
    else Count(fs[..|fs| - 1]) + if IsData(fs[|fs| - 1]) then 1 else 0
  }

  function Payload(fs: seq<Frame>): bytes {
    if fs == [] then []
    else Payload(fs[..|fs| - 1]) + if IsData(fs[|fs| - 1]) then fs[|fs| - 1].payload else []
  }

  function StreamGrants(fs: seq<Frame>): nat {
    if fs == [] then 0
    else StreamGrants(fs[..|fs| - 1]) + if fs[|fs| - 1].StreamCredit? then fs[|fs| - 1].amount else 0
  }

  function ChannelGrants(fs: seq<Frame>): nat {
    if fs == [] then 0
    else ChannelGrants(fs[..|fs| - 1]) + if fs[|fs| - 1].ChannelCredit? then fs[|fs| - 1].amount else 0
  }

  predicate Ended(fs: seq<Frame>) {
    fs != [] && (IsEnd(fs[|fs| - 1]) || Ended(fs[..|fs| - 1]))
  }

  predicate Aborted(fs: seq<Frame>) {
    fs != [] && (IsAbort(fs[|fs| - 1]) || Aborted(fs[..|fs| - 1]))
  }

  predicate Responded(fs: seq<Frame>) {
    fs != [] && (fs[|fs| - 1].ResponseStart? || Responded(fs[..|fs| - 1]))
  }

  /** The frames of stream i, in order. */
  function Proj(fs: seq<Frame>, i: nat): seq<Frame> {
    if fs == [] then []
    else Proj(fs[..|fs| - 1], i) + if Of(fs[|fs| - 1], i) then [fs[|fs| - 1]] else []
  }

  /** f may follow fs on the server-to-client side of one stream. */
  predicate DownNext(fs: seq<Frame>, f: Frame) {
    match f
    case RequestStart(_, _) => fs == []
    case RequestData(_, seqNo, flags, _) =>
      fs != [] && flags == FLAG_NONE && seqNo == Count(fs) && !Ended(fs) && !Aborted(fs)
    case RequestEnd(_, kind, lastSeq) =>
      fs != [] && kind == RequestBody && lastSeq == Count(fs) - 1 && !Ended(fs)
    case RequestAbort(_) => fs != [] && !Aborted(fs)
    case StreamCredit(_, kind, amount) => fs != [] && kind == ResponseBody && amount > 0
    case _ => false
  }

  /** f may follow fs on the client-to-server side of one stream. */
  predicate UpNext(fs: seq<Frame>, f: Frame) {
    match f
    case ResponseStart(_, _) => !Responded(fs) && !Ended(fs) && !Aborted(fs)
    case ResponseData(_, seqNo, flags, _) =>
      Responded(fs) && flags == FLAG_NONE && seqNo == Count(fs) && !Ended(fs) && !Aborted(fs)
    case ResponseEnd(_, kind, lastSeq) =>
      Responded(fs) && kind == ResponseBody && lastSeq == Count(fs) - 1 && !Ended(fs) && !Aborted(fs)
    case ResponseAbort(_) => !Ended(fs) && !Aborted(fs)
    case StreamCredit(_, kind, amount) => kind == RequestBody && amount > 0
    case _ => false
  }

  predicate WellDown(fs: seq<Frame>) {
    fs == [] || (WellDown(fs[..|fs| - 1]) && DownNext(fs[..|fs| - 1], fs[|fs| - 1]))
  }

  predicate WellUp(fs: seq<Frame>) {
    fs == [] || (WellUp(fs[..|fs| - 1]) && UpNext(fs[..|fs| - 1], fs[|fs| - 1]))
  }

  lemma Snoc(fs: seq<Frame>, f: Frame)
    ensures Count(fs + [f]) == Count(fs) + if IsData(f) then 1 else 0
    ensures Payload(fs + [f]) == Payload(fs) + if IsData(f) then f.payload else []
    ensures StreamGrants(fs + [f]) == StreamGrants(fs) + if f.StreamCredit? then f.amount else 0
    ensures ChannelGrants(fs + [f]) == ChannelGrants(fs) + if f.ChannelCredit? then f.amount else 0
    ensures Ended(fs + [f]) == (IsEnd(f) || Ended(fs))
    ensures Aborted(fs + [f]) == (IsAbort(f) || Aborted(fs))
    ensures Responded(fs + [f]) == (f.ResponseStart? || Responded(fs))
    ensures WellDown(fs + [f]) == (WellDown(fs) && DownNext(fs, f))
    ensures WellUp(fs + [f]) == (WellUp(fs) && UpNext(fs, f))
  {
    assert (fs + [f])[..|fs|] == fs;
  }

  lemma ProjSnoc(fs: seq<Frame>, f: Frame, i: nat)
    ensures Proj(fs + [f], i) == Proj(fs, i) + if Of(f, i) then [f] else []
  {
    assert (fs + [f])[..|fs|] == fs;
  }

  lemma {:induction false} ProjAppend(fs: seq<Frame>, gs: seq<Frame>, i: nat)
    ensures Proj(fs + gs, i) == Proj(fs, i) + Proj(gs, i)
    decreases |gs|
  {
    if gs == [] {
      assert fs + gs == fs;
    } else {
      var n := |gs| - 1;
      ProjAppend(fs, gs[..n], i);
      assert fs + gs == (fs + gs[..n]) + [gs[n]];
      ProjSnoc(fs + gs[..n], gs[n], i);
    }
  }

  /** A log and a later version of it. */
  lemma {:induction false} Grow(a: seq<Frame>, b: seq<Frame>)
    requires a <= b
    ensures Count(a) <= Count(b)
    ensures Payload(a) <= Payload(b)
    ensures StreamGrants(a) <= StreamGrants(b)
    ensures ChannelGrants(a) <= ChannelGrants(b)
    ensures Ended(a) ==> Ended(b)
    decreases |b|
  {
    if a == b {
    } else {
      var b' := b[..|b| - 1];
      assert a <= b';
      Grow(a, b');
    }
  }

  lemma {:induction false} ProjGrow(a: seq<Frame>, b: seq<Frame>, i: nat)
    requires a <= b
    ensures Proj(a, i) <= Proj(b, i)
    decreases |b|
  {
    if a == b {
    } else {
      var b' := b[..|b| - 1];
      assert a <= b';
      ProjGrow(a, b', i);
    }
  }

  /** The next undelivered frame of a log comes next in its stream's projection. */
  lemma ProjHead(a: seq<Frame>, b: seq<Frame>, i: nat)
    requires |a| < |b| && a == b[..|a|] && Of(b[|a|], i)
    ensures Proj(a, i) + [b[|a|]] <= Proj(b, i)
  {
    var a' := a + [b[|a|]];
    assert a' <= b;
    ProjSnoc(a, b[|a|], i);
    ProjGrow(a', b, i);
  }

  lemma {:induction false} WellDownPrefix(a: seq<Frame>, b: seq<Frame>)
    requires a <= b && WellDown(b)
    ensures WellDown(a)
    decreases |b|
  {
    if a != b {
      assert a <= b[..|b| - 1];
      WellDownPrefix(a, b[..|b| - 1]);
    }
  }

  lemma {:induction false} WellUpPrefix(a: seq<Frame>, b: seq<Frame>)
    requires a <= b && WellUp(b)
    ensures WellUp(a)
    decreases |b|
  {
    if a != b {
      assert a <= b[..|b| - 1];
      WellUpPrefix(a, b[..|b| - 1]);
    }
  }

  /** After its END, a well-sent log carries no further payload. */
  lemma {:induction false} NoDataAfterEnd(a: seq<Frame>, b: seq<Frame>)
    requires a <= b && Ended(a) && (WellDown(b) || WellUp(b))
    ensures Payload(a) == Payload(b) && Count(a) == Count(b)
    decreases |b|
  {
    if a != b {
      var b' := b[..|b| - 1];
      assert a <= b';
      Grow(a, b');
      NoDataAfterEnd(a, b');
    }
  }
}
