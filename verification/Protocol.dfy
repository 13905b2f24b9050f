/** Vocabulary of the hostc tunnel protocol, version 4: bytes, limits, data kinds, frames, and the
    two arithmetic helpers (credit, channel choice) that both endpoints share.
    Metadata frames carry their decoded fields; the JSON text is not modelled. */
module Protocol {

  datatype Option<+T> = None | Some(value: T)

  datatype Result<+T> = Ok(value: T) | Err(message: string)

  type byte = b: int | 0 <= b < 256
  type bytes = seq<byte>

  const MAX_SAFE_INTEGER: nat := 0x1F_FFFF_FFFF_FFFF
  const MAX_CREDIT_BYTES: nat := MAX_SAFE_INTEGER
  const MAX_UINT32: nat := 0xFFFF_FFFF
  const MAX_UINT64: nat := 0xFFFF_FFFF_FFFF_FFFF
  const MAX_DATA_CHANNELS: nat := 8
  const DEFAULT_MAX_FRAME_BYTES: nat := 1024 * 1024
  const MAX_REMEMBERED_CLOSED_STREAMS: nat := 4096

  const FLAG_NONE: nat := 0
  const FLAG_WS_TEXT: nat := 1
  const FLAG_WS_BINARY: nat := 2

  datatype DataKind = RequestBody | ResponseBody | WsClient | WsServer

  /** The members of TunnelLimits that the state machines read. */
  datatype Limits = Limits(
    maxFrameBytes: nat,
    maxMetadataBytes: nat,
    maxWebSocketMessageBytes: nat,
    streamCreditBytes: nat,
    channelCreditBytes: nat,
    pendingDataBytes: nat)

  predicate PositiveSafe(n: int) {
    0 < n <= MAX_SAFE_INTEGER
  }

  predicate IsTunnelLimits(l: Limits) {
    && PositiveSafe(l.maxFrameBytes)
    && PositiveSafe(l.maxMetadataBytes)
    && PositiveSafe(l.maxWebSocketMessageBytes)
    && PositiveSafe(l.streamCreditBytes)
    && PositiveSafe(l.channelCreditBytes)
    && PositiveSafe(l.pendingDataBytes)
    && l.maxMetadataBytes <= l.maxFrameBytes
    && l.maxWebSocketMessageBytes <= l.maxFrameBytes
  }

  predicate IsValidDataChannelCount(n: int) {
    1 <= n <= MAX_DATA_CHANNELS
  }

  datatype Frame =
    | RequestStart(streamId: nat, hasBody: bool)
    | RequestData(streamId: nat, seqNo: nat, flags: nat, payload: bytes)
    | RequestEnd(streamId: nat, kind: DataKind, lastSeq: int)
    | RequestAbort(streamId: nat)
    | ResponseStart(streamId: nat, hasBody: bool)
    | ResponseData(streamId: nat, seqNo: nat, flags: nat, payload: bytes)
    | ResponseEnd(streamId: nat, kind: DataKind, lastSeq: int)
    | ResponseAbort(streamId: nat)
    | StreamCredit(streamId: nat, kind: DataKind, amount: nat)
    | ChannelCredit(amount: nat)

  /** Why an endpoint gives up the whole client connection. */
  datatype ProtocolError =
    | WrongDirection
    | UnknownStream
    | DuplicateStream
    | WrongChannel
    | UnexpectedFlags
    | DataAfterEnd
    | CreditViolation
    | SeqDiscontinuity
    | EndKindMismatch
    | LastSeqMismatch

  function Min(a: nat, b: nat): nat {
    if a <= b then a else b
  }

  /** Credit never grows past MAX_CREDIT_BYTES. */
  function AddCredit(current: nat, amount: nat): nat {
    Min(MAX_CREDIT_BYTES, current + amount)
  }

  /** None stands for the thrown "insufficient credit". */
  function ConsumeCredit(current: nat, amount: nat): Option<nat> {
    if amount > current then None else Some(current - amount)
  }
}
