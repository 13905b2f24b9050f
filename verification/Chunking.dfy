/** Splitting one body chunk or WebSocket message into data frames: sendDataPayload of both endpoints. */
module Chunking {
  import opened Protocol
  import opened FrameCodec
  import ServerSpec
  import Frames

  /** The payloads of the frames that carry one payload; an empty payload still takes one frame. */
  function Chunks(payload: bytes, max: nat): (r: seq<bytes>)
    requires max > 0
    ensures |r| >= 1
    decreases |payload|
  {
    if |payload| <= max then [payload] else [payload[..max]] + Chunks(payload[max..], max)
  }

  function CeilDiv(n: nat, d: nat): nat
    requires d > 0
  {
    (n + d - 1) / d
  }

  function Max(a: nat, b: nat): nat {
    if a >= b then a else b
  }

  lemma {:induction false} ChunksRejoin(payload: bytes, max: nat)
    requires max > 0
    ensures Frames.Concat(Chunks(payload, max)) == payload
    decreases |payload|
  {
    var r := Chunks(payload, max);
    Frames.ConcatHead(r);
    if |payload| > max {
      ChunksRejoin(payload[max..], max);
      assert r[1..] == Chunks(payload[max..], max);
    } else {
      assert r[1..] == [];
    }
  }

  /** Only the last chunk may be short, and it is empty only for an empty payload. */
  lemma {:induction false} ChunksFit(payload: bytes, max: nat)
    requires max > 0
    ensures var r := Chunks(payload, max);
            && (forall k :: 0 <= k < |r| - 1 ==> |r[k]| == max)
            && |r[|r| - 1]| <= max
            && (payload != [] ==> r[|r| - 1] != [])
    decreases |payload|
  {
    if |payload| > max {
      ChunksFit(payload[max..], max);
    }
  }

  lemma CeilStep(n: nat, d: nat)
    requires n > d > 0
    ensures CeilDiv(n, d) == 1 + CeilDiv(n - d, d)
  {
    var m := n - d + d - 1;
    var q := m / d;
    assert q * d <= m < (q + 1) * d;
    assert (q + 1) * d == q * d + d && (q + 2) * d == (q + 1) * d + d;
    DivBy(n + d - 1, d, q + 1);
  }

  lemma {:induction false} ChunkCount(payload: bytes, max: nat)
    requires max > 0
    ensures |Chunks(payload, max)| == Max(1, CeilDiv(|payload|, max))
    decreases |payload|
  {
    var n := |payload|;
    if n > max {
      ChunkCount(payload[max..], max);
      CeilStep(n, max);
      assert CeilDiv(n - max, max) >= 1;
    } else if n == 0 {
      DivBy(max - 1, max, 0);
    } else {
      DivBy(n + max - 1, max, 1);
    }
  }

  /** The chunks are what repeated turns of the endpoints' send loop take from the payload in hand. */
  lemma ChunksByTurns(rest: bytes, max: nat)
    requires max > 0
    ensures Chunks(rest, max) ==
            [ServerSpec.Chunk(rest, max)] +
            match ServerSpec.AfterChunk(rest, max) case None => [] case Some(left) => Chunks(left, max)
  {
    if |rest| <= max {
      assert rest[..|rest|] == rest && rest[|rest|..] == [];
    }
  }

  /** Under valid limits a WebSocket message of legal size is one frame. */
  lemma MessageIsOneFrame(l: Limits, message: bytes)
    requires IsTunnelLimits(l) && |message| <= l.maxWebSocketMessageBytes
    ensures Chunks(message, l.maxFrameBytes) == [message]
  {
  }

  /** k chunks are sent, and offset is where the next one starts. */
  ghost predicate AtOffset(payload: bytes, max: nat, parts: seq<bytes>, offset: nat, k: nat)
    requires max > 0
  {
    && offset <= |payload| && k <= |parts| && (offset == 0 <==> k == 0)
    && if offset < |payload| || offset == 0 then parts[k..] == Chunks(payload[offset..], max) else k == |parts|
  }

  /** The chunk at offset comes next, and the rest of the chunks follow from where it ends. */
  lemma NextChunk(payload: bytes, offset: nat, max: nat, parts: seq<bytes>, k: nat)
    requires max > 0 && AtOffset(payload, max, parts, offset, k) && (offset < |payload| || offset == 0)
    ensures var chunk := payload[offset..Min(offset + max, |payload|)];
            && k < |parts| && chunk == parts[k]
            && if payload == [] then |parts| == k + 1
               else |chunk| > 0 && AtOffset(payload, max, parts, offset + |chunk|, k + 1)
  {
    var rest := payload[offset..];
    assert parts[k] == parts[k..][0] && parts[k + 1..] == parts[k..][1..];
    if |rest| > max {
      assert rest[max..] == payload[offset + max..];
    }
  }

  datatype Outcome = Completed | TooBig | Unavailable | Unencodable

  predicate IsWebSocket(kind: DataKind) {
    kind == WsClient || kind == WsServer
  }

  function TypeFor(kind: DataKind): FrameType {
    if kind == RequestBody || kind == WsClient then RequestDataType else ResponseDataType
  }

  function Numbered(kind: DataKind, i: nat, first: nat, flags: nat, parts: seq<bytes>): seq<WireFrame> {
    seq(|parts|, k requires 0 <= k < |parts| => WireFrame(TypeFor(kind), i, first + k, flags, parts[k]))
  }

  /** The encoder takes the frame. */
  predicate Encodable(f: WireFrame, max: nat) {
    EncodeFrame(f, Some(max)).Ok?
  }

  /** The frames sent so far are the first of all, one a turn, and each was encoded. */
  ghost predicate SentSoFar(frames: seq<WireFrame>, all: seq<WireFrame>, turns: nat, max: nat) {
    && |frames| <= Min(turns, |all|) && frames == all[..|frames|]
    && forall f :: f in frames ==> Encodable(f, max)
  }

  lemma SentOneMore(frames: seq<WireFrame>, all: seq<WireFrame>, turns: nat, max: nat, f: WireFrame)
    requires SentSoFar(frames, all, turns, max) && |frames| < Min(turns, |all|) && f == all[|frames|] && Encodable(f, max)
    ensures SentSoFar(frames + [f], all, turns, max)
  {
  }

  /** Sends payload from sequence number first on; the stream is available for the first turns turns
      of the loop. Whatever happens, the frames sent are the first of those that carry the payload. */
  method SendDataPayload(l: Limits, kind: DataKind, i: nat, first: nat, payload: bytes, flags: nat, turns: nat)
    returns (frames: seq<WireFrame>, outcome: Outcome)
    requires l.maxFrameBytes > 0
    ensures outcome == TooBig <==> IsWebSocket(kind) && |payload| > l.maxWebSocketMessageBytes
    ensures outcome == TooBig ==> frames == []
    ensures outcome != TooBig ==>
              var all := Numbered(kind, i, first, flags, Chunks(payload, l.maxFrameBytes));
              && SentSoFar(frames, all, turns, l.maxFrameBytes)
              && (outcome == Completed <==> |frames| == |all|)
              && (outcome == Unavailable <==> |frames| == turns < |all|)
              && (outcome == Unencodable <==>
                    |frames| < Min(turns, |all|) && !Encodable(all[|frames|], l.maxFrameBytes))
  {
    frames := [];
    if IsWebSocket(kind) && |payload| > l.maxWebSocketMessageBytes {
      return [], TooBig;
    }
    ghost var parts := Chunks(payload, l.maxFrameBytes);
    ghost var all := Numbered(kind, i, first, flags, parts);
    var offset, next := 0, first;
    assert payload[0..] == payload;
    while offset < |payload| || offset == 0
      invariant AtOffset(payload, l.maxFrameBytes, parts, offset, |frames|) && next == first + |frames|
      invariant SentSoFar(frames, all, turns, l.maxFrameBytes)
      decreases |payload| - offset
    {
      if |frames| == turns {
        return frames, Unavailable;
      }
      var chunk := payload[offset..Min(offset + l.maxFrameBytes, |payload|)];
      NextChunk(payload, offset, l.maxFrameBytes, parts, |frames|);
      var frame := WireFrame(TypeFor(kind), i, next, flags, chunk);
      assert frame == all[|frames|];
      if !Encodable(frame, l.maxFrameBytes) {
        return frames, Unencodable;
      }
      SentOneMore(frames, all, turns, l.maxFrameBytes, frame);
      frames := frames + [frame];
      next := next + 1;
      if |payload| == 0 {
        break;
      }
      offset := offset + |chunk|;
    }
    outcome := Completed;
  }
}
