/** The four credit windows of an endpoint as a value, and what each controller call does to them.
    A missing map entry reads as zero, as `?? 0` does in the source. */
module CreditSpec {
  import opened Protocol

  datatype Key = Key(stream: nat, kind: DataKind)

  datatype Credit = Credit(
    outStream: map<Key, nat>,
    inStream: map<Key, nat>,
    outChannel: map<nat, nat>,
    inChannel: map<nat, nat>)

  function Get<K(==)>(m: map<K, nat>, k: K): nat {
    if k in m then m[k] else 0
  }

  function Keys(i: nat): set<Key> {
    {Key(i, RequestBody), Key(i, ResponseBody), Key(i, WsClient), Key(i, WsServer)}
  }

  function SetAll(m: map<Key, nat>, i: nat, n: nat): map<Key, nat> {
    m[Key(i, RequestBody) := n][Key(i, ResponseBody) := n][Key(i, WsClient) := n][Key(i, WsServer) := n]
  }

  function FullChannels(channels: nat, n: nat): map<nat, nat> {
    if channels == 0 then map[] else FullChannels(channels - 1, n)[channels - 1 := n]
  }

  function Reset(channels: nat, l: Limits): Credit {
    Credit(map[], map[], FullChannels(channels, l.channelCreditBytes), FullChannels(channels, l.channelCreditBytes))
  }

  function Seed(cr: Credit, i: nat, l: Limits): Credit {
    cr.(outStream := SetAll(cr.outStream, i, l.streamCreditBytes),
        inStream := SetAll(cr.inStream, i, l.streamCreditBytes))
  }

  function Delete(cr: Credit, i: nat): Credit {
    cr.(outStream := cr.outStream - Keys(i), inStream := cr.inStream - Keys(i))
  }

  function ApplyStream(cr: Credit, i: nat, kind: DataKind, amount: nat): Credit {
    var k := Key(i, kind);
    cr.(outStream := cr.outStream[k := AddCredit(Get(cr.outStream, k), amount)])
  }

  function ApplyChannel(cr: Credit, c: nat, amount: nat): Credit {
    cr.(outChannel := cr.outChannel[c := AddCredit(Get(cr.outChannel, c), amount)])
  }

  predicate HasOutbound(cr: Credit, i: nat, c: nat, kind: DataKind, amount: nat) {
    Get(cr.outStream, Key(i, kind)) >= amount && Get(cr.outChannel, c) >= amount
  }

  /** The stream window is written before the channel window is looked at, so a throw on the
      channel leaves the stream window already decremented. */
  datatype Charged = Charged(credit: Credit, ok: bool)

  function DecrementOutbound(cr: Credit, i: nat, c: nat, kind: DataKind, amount: nat): Charged {
    var k := Key(i, kind);
    match ConsumeCredit(Get(cr.outStream, k), amount)
    case None => Charged(cr, false)
    case Some(left) =>
      var cr' := cr.(outStream := cr.outStream[k := left]);
      match ConsumeCredit(Get(cr.outChannel, c), amount)
      case None => Charged(cr', false)
      case Some(channelLeft) => Charged(cr'.(outChannel := cr.outChannel[c := channelLeft]), true)
  }

  function ConsumeInbound(cr: Credit, i: nat, c: nat, kind: DataKind, amount: nat): Charged {
    var k := Key(i, kind);
    if Get(cr.inStream, k) < amount || Get(cr.inChannel, c) < amount then Charged(cr, false)
    else Charged(cr.(inStream := cr.inStream[k := Get(cr.inStream, k) - amount],
                     inChannel := cr.inChannel[c := Get(cr.inChannel, c) - amount]), true)
  }

  function GrantInbound(cr: Credit, i: nat, c: nat, kind: DataKind, amount: nat): Credit {
    if amount == 0 then cr
    else
      var k := Key(i, kind);
      cr.(inStream := cr.inStream[k := AddCredit(Get(cr.inStream, k), amount)],
          inChannel := cr.inChannel[c := AddCredit(Get(cr.inChannel, c), amount)])
  }

  /** The frames that tell the peer about a grant; none for an empty grant. */
  function GrantFrames(i: nat, kind: DataKind, amount: nat): seq<Frame> {
    if amount == 0 then [] else [StreamCredit(i, kind, amount), ChannelCredit(amount)]
  }
}
