/** Facts about Forget and Remember on distinct ids. */
module TombstoneLemmas {
  import opened Protocol
  import opened TombstoneSpec

  ghost predicate NoDup(ids: seq<nat>) {
    forall j, k :: 0 <= j < k < |ids| ==> ids[j] != ids[k]
  }

  function ToSet(ids: seq<nat>): set<nat> {
    set i | i in ids
  }

  lemma {:induction false} ToSetSize(ids: seq<nat>)
    requires NoDup(ids)
    ensures |ToSet(ids)| == |ids|
  {
    if ids != [] {
      var rest := ids[1..];
      ToSetSize(rest);
      assert ToSet(ids) == ToSet(rest) + {ids[0]};
      assert ids[0] !in rest;
    }
  }

  lemma {:induction false} ForgetAbsent(ids: seq<nat>, i: nat)
    requires i !in ids
    ensures Forget(ids, i) == ids
  {
    if ids != [] {
      ForgetAbsent(ids[1..], i);
    }
  }

  /** Remembering an id that is not remembered yet appends it, evicting the oldest when full. */
  lemma RememberFresh(ids: seq<nat>, i: nat)
    requires NoDup(ids) && i !in ids && |ids| <= MAX_REMEMBERED_CLOSED_STREAMS
    ensures Remember(ids, i) == if |ids| < MAX_REMEMBERED_CLOSED_STREAMS then ids + [i] else ids[1..] + [i]
    ensures NoDup(Remember(ids, i)) && |Remember(ids, i)| <= MAX_REMEMBERED_CLOSED_STREAMS
  {
    ForgetAbsent(ids, i);
  }
}
