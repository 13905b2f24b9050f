/** Senders that wait for outbound credit. A sender parks when a window is too small; every event that
    can help it wakes all parked senders, and a woken sender looks again before it parks anew. */
module Wakeups {
  import opened Protocol
  import opened CreditSpec

  datatype Phase = Parked | Woken | Returned | Thrown

  datatype Waiter = Waiter(stream: nat, channel: nat, kind: DataKind, amount: nat)

  /** Senders by ticket; a ticket names one call of waitForOutbound. */
  datatype Waiting = Waiting(credit: Credit, senders: map<nat, Sender>)

  datatype Sender = Sender(want: Waiter, phase: Phase)

  datatype CreditEvent =
    | DoReset(channels: nat)
    | DoSeed(i: nat)
    | DoDelete(i: nat)
    | DoApplyStream(i: nat, kind: DataKind, amount: nat)
    | DoApplyChannel(c: nat, amount: nat)
    | DoDecrement(i: nat, c: nat, kind: DataKind, amount: nat)
    | DoConsume(i: nat, c: nat, kind: DataKind, amount: nat)
    | DoGrant(i: nat, c: nat, kind: DataKind, amount: nat)
    | Begin(ticket: nat, want: Waiter, canWait: bool)
    | Resume(ticket: nat, canWait: bool)

  predicate Enough(cr: Credit, want: Waiter) {
    HasOutbound(cr, want.stream, want.channel, want.kind, want.amount)
  }

  function Wake(senders: map<nat, Sender>): map<nat, Sender> {
    map t | t in senders :: if senders[t].phase == Parked then senders[t].(phase := Woken) else senders[t]
  }

  /** One look at the credit: the head of the wait loop. */
  function Look(cr: Credit, want: Waiter, canWait: bool): Sender {
    Sender(want, if !canWait then Thrown else if Enough(cr, want) then Returned else Parked)
  }

  predicate CanHappen(w: Waiting, ev: CreditEvent) {
    match ev
    case DoSeed(i) => forall t :: t in w.senders ==> w.senders[t].want.stream != i
    case Begin(t, _, _) => t !in w.senders
    case Resume(t, _) => t in w.senders && w.senders[t].phase == Woken
    case _ => true
  }

  function Happen(w: Waiting, l: Limits, ev: CreditEvent): Waiting
    requires CanHappen(w, ev)
  {
    match ev
    case DoReset(channels) => Waiting(Reset(channels, l), Wake(w.senders))
    case DoSeed(i) => w.(credit := Seed(w.credit, i, l))
    case DoDelete(i) => Waiting(Delete(w.credit, i), Wake(w.senders))
    case DoApplyStream(i, kind, amount) => Waiting(ApplyStream(w.credit, i, kind, amount), Wake(w.senders))
    case DoApplyChannel(c, amount) => Waiting(ApplyChannel(w.credit, c, amount), Wake(w.senders))
    case DoDecrement(i, c, kind, amount) => w.(credit := DecrementOutbound(w.credit, i, c, kind, amount).credit)
    case DoConsume(i, c, kind, amount) => w.(credit := ConsumeInbound(w.credit, i, c, kind, amount).credit)
    case DoGrant(i, c, kind, amount) => w.(credit := GrantInbound(w.credit, i, c, kind, amount))
    case Begin(t, want, canWait) => w.(senders := w.senders[t := Look(w.credit, want, canWait)])
    case Resume(t, canWait) => w.(senders := w.senders[t := Look(w.credit, w.senders[t].want, canWait)])
  }

  /** A parked sender really cannot send. */
  ghost predicate NoLostWakeup(w: Waiting) {
    forall t :: t in w.senders && w.senders[t].phase == Parked ==> !Enough(w.credit, w.senders[t].want)
  }

  lemma HappenKeeps(w: Waiting, l: Limits, ev: CreditEvent)
    requires NoLostWakeup(w) && CanHappen(w, ev)
    ensures NoLostWakeup(Happen(w, l, ev))
  {
    var w' := Happen(w, l, ev);
    forall t | t in w'.senders && w'.senders[t].phase == Parked ensures !Enough(w'.credit, w'.senders[t].want) {
      if ev.DoSeed? || ev.DoDecrement? || ev.DoConsume? || ev.DoGrant? {
        assert w'.senders == w.senders;
        assert !Enough(w.credit, w.senders[t].want);
        WindowsNotRaised(w, l, ev, w.senders[t].want);
      }
    }
  }

  /** Events that wake nobody raise no window a parked sender is waiting for. */
  lemma WindowsNotRaised(w: Waiting, l: Limits, ev: CreditEvent, want: Waiter)
    requires CanHappen(w, ev) && (ev.DoSeed? || ev.DoDecrement? || ev.DoConsume? || ev.DoGrant?)
    requires ev.DoSeed? ==> want.stream != ev.i
    ensures var cr, cr' := w.credit, Happen(w, l, ev).credit;
            && Get(cr'.outStream, Key(want.stream, want.kind)) <= Get(cr.outStream, Key(want.stream, want.kind))
            && Get(cr'.outChannel, want.channel) <= Get(cr.outChannel, want.channel)
  {
  }

  function AfterEvents(w: Waiting, l: Limits, evs: seq<CreditEvent>): Option<Waiting> {
    if evs == [] then Some(w)
    else
      var n := |evs| - 1;
      match AfterEvents(w, l, evs[..n])
      case None => None
      case Some(v) => if CanHappen(v, evs[n]) then Some(Happen(v, l, evs[n])) else None
  }

  /** Over every sequence of controller calls that seeds only fresh streams, no wakeup is lost. */
  lemma {:induction false} NeverLosesWakeup(l: Limits, credit: Credit, evs: seq<CreditEvent>, v: Waiting)
    requires AfterEvents(Waiting(credit, map[]), l, evs) == Some(v)
    ensures NoLostWakeup(v)
    decreases |evs|
  {
    if evs != [] {
      var n := |evs| - 1;
      var u := AfterEvents(Waiting(credit, map[]), l, evs[..n]).value;
      NeverLosesWakeup(l, credit, evs[..n], u);
      HappenKeeps(u, l, evs[n]);
    }
  }

  /** Whatever raises a parked sender's window, or deletes its stream, wakes it. */
  lemma RaisingWakes(w: Waiting, l: Limits, ev: CreditEvent, t: nat)
    requires CanHappen(w, ev) && t in w.senders && w.senders[t].phase == Parked
    requires var want := w.senders[t].want; var cr, cr' := w.credit, Happen(w, l, ev).credit;
             || Get(cr'.outStream, Key(want.stream, want.kind)) > Get(cr.outStream, Key(want.stream, want.kind))
             || Get(cr'.outChannel, want.channel) > Get(cr.outChannel, want.channel)
             || (ev.DoDelete? && ev.i == want.stream)
    ensures t in Happen(w, l, ev).senders && Happen(w, l, ev).senders[t].phase == Woken
  {
    if ev.DoSeed? || ev.DoDecrement? || ev.DoConsume? || ev.DoGrant? {
      WindowsNotRaised(w, l, ev, w.senders[t].want);
    }
  }

  /** A sender gets past the wait only with both windows large enough and its stream available. */
  lemma ReturnsOnlyWithCredit(w: Waiting, l: Limits, ev: CreditEvent, t: nat)
    requires CanHappen(w, ev) && t in Happen(w, l, ev).senders
    requires Happen(w, l, ev).senders[t].phase == Returned && (t in w.senders ==> w.senders[t].phase != Returned)
    ensures (ev.Begin? || ev.Resume?) && ev.ticket == t && ev.canWait
    ensures Enough(w.credit, Happen(w, l, ev).senders[t].want)
  {
  }

  /** No sender is left behind: in every reachable state one that has not got through is parked only if a window
      is smaller than it needs; once woken, it can look, and gets through if and only if neither is. */
  lemma LooksExactly(l: Limits, credit: Credit, evs: seq<CreditEvent>, v: Waiting, t: nat)
    requires AfterEvents(Waiting(credit, map[]), l, evs) == Some(v)
    requires t in v.senders && (v.senders[t].phase == Parked || v.senders[t].phase == Woken)
    ensures var want := v.senders[t].want;
            var covered := want.amount <= Get(v.credit.outStream, Key(want.stream, want.kind))
                           && want.amount <= Get(v.credit.outChannel, want.channel);
            && (covered ==> v.senders[t].phase == Woken)
            && (v.senders[t].phase == Woken ==>
                  && CanHappen(v, Resume(t, true)) && t in Happen(v, l, Resume(t, true)).senders
                  && (Happen(v, l, Resume(t, true)).senders[t].phase == if covered then Returned else Parked)
                  && Happen(v, l, Resume(t, false)).senders[t].phase == Thrown)
  {
    NeverLosesWakeup(l, credit, evs, v);
  }

  // ----- the cap -----

  ghost predicate AllCapped<K>(m: map<K, nat>) {
    forall k :: k in m ==> m[k] <= MAX_CREDIT_BYTES
  }

  ghost predicate Capped(cr: Credit) {
    AllCapped(cr.outStream) && AllCapped(cr.inStream) && AllCapped(cr.outChannel) && AllCapped(cr.inChannel)
  }

  lemma {:induction false} FullCapped(channels: nat, n: nat)
    requires n <= MAX_CREDIT_BYTES
    ensures AllCapped(FullChannels(channels, n))
  {
    if channels > 0 {
      FullCapped(channels - 1, n);
    }
  }

  lemma HappenCapped(w: Waiting, l: Limits, ev: CreditEvent)
    requires IsTunnelLimits(l) && CanHappen(w, ev) && Capped(w.credit)
    ensures Capped(Happen(w, l, ev).credit)
  {
    if ev.DoReset? {
      FullCapped(ev.channels, l.channelCreditBytes);
    }
  }

  /** Whatever amounts the peer grants, and however often, no window ever exceeds MAX_CREDIT_BYTES; and a credit
      frame raises the window it is for by its amount, or to that maximum. */
  lemma {:induction false} WindowsCapped(l: Limits, evs: seq<CreditEvent>, v: Waiting, i: nat, kind: DataKind, c: nat, amount: nat)
    requires IsTunnelLimits(l) && AfterEvents(Waiting(Credit(map[], map[], map[], map[]), map[]), l, evs) == Some(v)
    ensures Capped(v.credit)
    ensures var before, after := Get(v.credit.outStream, Key(i, kind)),
                                 Get(Happen(v, l, DoApplyStream(i, kind, amount)).credit.outStream, Key(i, kind));
            after == if before + amount <= MAX_CREDIT_BYTES then before + amount else MAX_CREDIT_BYTES
    ensures var before, after := Get(v.credit.outChannel, c), Get(Happen(v, l, DoApplyChannel(c, amount)).credit.outChannel, c);
            after == if before + amount <= MAX_CREDIT_BYTES then before + amount else MAX_CREDIT_BYTES
    decreases |evs|
  {
    if evs != [] {
      var n := |evs| - 1;
      var u := AfterEvents(Waiting(Credit(map[], map[], map[], map[]), map[]), l, evs[..n]).value;
      WindowsCapped(l, evs[..n], u, i, kind, c, amount);
      HappenCapped(u, l, evs[n]);
    }
  }
}
