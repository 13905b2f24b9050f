/** DataChannelQueue: the handlers of one channel's messages run one at a time, in arrival order.
    A promise chain is modelled by tickets: task t starts only once the task it was chained to settled. */
module Queue {
  import opened Protocol

  datatype TaskPhase = Waiting | Running | Settled(failed: bool)

  /** era counts the clear calls before the task was enqueued. */
  datatype Task = Task(channel: nat, era: nat, after: Option<nat>, phase: TaskPhase)

  datatype Chains = Chains(tails: map<nat, nat>, era: nat, tasks: seq<Task>)

  datatype QueueEvent =
    | Enqueue(channel: nat)
    | Clear
    | Start(ticket: nat)
    | Settle(ticket: nat, failed: bool)

  const EMPTY := Chains(map[], 0, [])

  function Tail(q: Chains, channel: nat): Option<nat> {
    if channel in q.tails then Some(q.tails[channel]) else None
  }

  function Enqueued(q: Chains, channel: nat): Chains {
    Chains(q.tails[channel := |q.tasks|], q.era, q.tasks + [Task(channel, q.era, Tail(q, channel), Waiting)])
  }

  function Cleared(q: Chains): Chains {
    q.(tails := map[], era := q.era + 1)
  }

  /** The promise in front has settled, or there is none. A rejection is caught and counts as settled. */
  predicate CanStart(q: Chains, t: nat) {
    && t < |q.tasks| && q.tasks[t].phase == Waiting
    && (q.tasks[t].after.None? || (q.tasks[t].after.value < |q.tasks| && q.tasks[q.tasks[t].after.value].phase.Settled?))
  }

  predicate Possible(q: Chains, ev: QueueEvent) {
    match ev
    case Start(t) => CanStart(q, t)
    case Settle(t, _) => t < |q.tasks| && q.tasks[t].phase == Running
    case _ => true
  }

  function Apply(q: Chains, ev: QueueEvent): Chains
    requires Possible(q, ev)
  {
    match ev
    case Enqueue(c) => Enqueued(q, c)
    case Clear => Cleared(q)
    case Start(t) => q.(tasks := q.tasks[t := q.tasks[t].(phase := Running)])
    case Settle(t, failed) => q.(tasks := q.tasks[t := q.tasks[t].(phase := Settled(failed))])
  }

  function ApplyAll(q: Chains, evs: seq<QueueEvent>): Option<Chains> {
    if evs == [] then Some(q)
    else
      var n := |evs| - 1;
      match ApplyAll(q, evs[..n])
      case None => None
      case Some(p) => if Possible(p, evs[n]) then Some(Apply(p, evs[n])) else None
  }

  /** Two messages of one channel with no clear between them. */
  predicate SameLane(q: Chains, s: nat, t: nat) {
    s < |q.tasks| && t < |q.tasks| && q.tasks[s].channel == q.tasks[t].channel && q.tasks[s].era == q.tasks[t].era
  }

  /** Every task is chained to its lane's previous one, and the tail is the lane's last. */
  ghost predicate Chained(q: Chains) {
    && (forall t :: 0 <= t < |q.tasks| ==> q.tasks[t].era <= q.era)
    && (forall c :: c in q.tails ==>
          && q.tails[c] < |q.tasks| && q.tasks[q.tails[c]].channel == c && q.tasks[q.tails[c]].era == q.era)
    && (forall t :: 0 <= t < |q.tasks| && q.tasks[t].era == q.era ==>
          q.tasks[t].channel in q.tails && t <= q.tails[q.tasks[t].channel])
    && (forall t :: 0 <= t < |q.tasks| && q.tasks[t].after.Some? ==>
          q.tasks[t].after.value < t && SameLane(q, q.tasks[t].after.value, t))
    && (forall s, t :: 0 <= s < t < |q.tasks| && SameLane(q, s, t) ==>
          q.tasks[t].after.Some? && s <= q.tasks[t].after.value)
  }

  /** A task that has started finds everything before it in its lane settled. */
  ghost predicate InOrder(q: Chains) {
    forall s, t :: 0 <= s < t < |q.tasks| && SameLane(q, s, t) && q.tasks[t].phase != Waiting ==>
      q.tasks[s].phase.Settled?
  }

  lemma PhaseChained(q: Chains, p: Chains)
    requires Chained(q) && p.tails == q.tails && p.era == q.era && |p.tasks| == |q.tasks|
    requires forall t :: 0 <= t < |q.tasks| ==> p.tasks[t].(phase := Waiting) == q.tasks[t].(phase := Waiting)
    ensures Chained(p)
  {
    assert forall s, t :: SameLane(p, s, t) <==> SameLane(q, s, t);
  }

  lemma EnqueueChained(q: Chains, c: nat)
    requires Chained(q)
    ensures Chained(Enqueued(q, c))
  {
    var p := Enqueued(q, c);
    assert forall t :: 0 <= t < |q.tasks| ==> p.tasks[t] == q.tasks[t];
    forall s, t | 0 <= s < t < |p.tasks| && SameLane(p, s, t)
      ensures p.tasks[t].after.Some? && s <= p.tasks[t].after.value
    {
      if t < |q.tasks| {
        assert SameLane(q, s, t);
      }
    }
  }

  lemma ClearChained(q: Chains)
    requires Chained(q)
    ensures Chained(Cleared(q))
  {
    assert forall s, t :: SameLane(Cleared(q), s, t) <==> SameLane(q, s, t);
  }

  lemma ApplyChained(q: Chains, ev: QueueEvent)
    requires Chained(q) && Possible(q, ev)
    ensures Chained(Apply(q, ev))
  {
    match ev
    case Enqueue(c) => EnqueueChained(q, c);
    case Clear => ClearChained(q);
    case Start(_) => PhaseChained(q, Apply(q, ev));
    case Settle(_, _) => PhaseChained(q, Apply(q, ev));
  }

  lemma ApplyInOrder(q: Chains, ev: QueueEvent)
    requires Chained(q) && InOrder(q) && Possible(q, ev)
    ensures InOrder(Apply(q, ev))
  {
    var p := Apply(q, ev);
    forall s, t | 0 <= s < t < |p.tasks| && SameLane(p, s, t) && p.tasks[t].phase != Waiting
      ensures p.tasks[s].phase.Settled?
    {
      assert t < |q.tasks| && SameLane(q, s, t);
      if ev == Start(t) {
        var a := q.tasks[t].after.value;
        assert s <= a && q.tasks[a].phase.Settled?;
        if s < a {
          assert SameLane(q, s, a);
        }
      } else {
        assert q.tasks[t].phase != Waiting;
        assert q.tasks[s].phase.Settled?;
      }
    }
  }

  lemma {:induction false} RunsInOrder(evs: seq<QueueEvent>, q: Chains)
    requires ApplyAll(EMPTY, evs) == Some(q)
    ensures Chained(q) && InOrder(q)
    decreases |evs|
  {
    if evs != [] {
      var n := |evs| - 1;
      var p := ApplyAll(EMPTY, evs[..n]).value;
      RunsInOrder(evs[..n], p);
      ApplyChained(p, evs[n]);
      ApplyInOrder(p, evs[n]);
    }
  }

  /** After any sequence of calls and settlements: a lane has at most one task running, and a waiting
      task may start exactly when every earlier message of its lane has settled, failed or not. */
  lemma OneAtATimeInArrivalOrder(evs: seq<QueueEvent>, q: Chains)
    requires ApplyAll(EMPTY, evs) == Some(q)
    ensures forall s, t :: 0 <= s < t < |q.tasks| && SameLane(q, s, t) ==>
              !(q.tasks[s].phase == Running && q.tasks[t].phase == Running)
    ensures forall t :: 0 <= t < |q.tasks| && q.tasks[t].phase == Waiting ==>
              (CanStart(q, t) <==> forall s :: 0 <= s < t && SameLane(q, s, t) ==> q.tasks[s].phase.Settled?)
  {
    RunsInOrder(evs, q);
    forall t | 0 <= t < |q.tasks| && q.tasks[t].phase == Waiting
      ensures CanStart(q, t) <==> forall s :: 0 <= s < t && SameLane(q, s, t) ==> q.tasks[s].phase.Settled?
    {
      if CanStart(q, t) {
        forall s | 0 <= s < t && SameLane(q, s, t) ensures q.tasks[s].phase.Settled? {
          var a := q.tasks[t].after.value;
          if s < a {
            assert SameLane(q, s, a);
          }
        }
      }
    }
  }

  class DataChannelQueue {
    var chains: map<nat, nat>
    ghost var era: nat
    ghost var tasks: seq<Task>

    ghost function State(): Chains
      reads this
    {
      Chains(chains, era, tasks)
    }

    constructor ()
      ensures State() == EMPTY
    {
      chains, era, tasks := map[], 0, [];
    }

    /** next is the promise of the new task, previous the one it is chained to. */
    method EnqueueTask(channelId: nat, next: nat) returns (previous: Option<nat>)
      requires next == |tasks|
      modifies this
      ensures State() == Apply(old(State()), Enqueue(channelId))
      ensures tasks[next].after == previous
    {
      previous := if channelId in chains then Some(chains[channelId]) else None;
      chains := chains[channelId := next];
      tasks := tasks + [Task(channelId, era, previous, Waiting)];
    }

    method ClearChains()
      modifies this
      ensures State() == Apply(old(State()), Clear)
    {
      chains := map[];
      era := era + 1;
    }
  }
}
