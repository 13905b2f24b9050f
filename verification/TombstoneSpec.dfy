/** Closed stream ids in insertion order, as a JavaScript Set keeps them. */
module TombstoneSpec {
  import opened Protocol

  /** Set.delete, keeping the order of the others. */
  function Forget(ids: seq<nat>, i: nat): (r: seq<nat>)
    ensures forall j :: j in r <==> j in ids && j != i
    ensures |r| <= |ids|
  {
    if ids == [] then []
    else if ids[0] == i then Forget(ids[1..], i)
    else [ids[0]] + Forget(ids[1..], i)
  }

  /** rememberClosedStream: move i to the end and evict the oldest id past the bound. */
  function Remember(ids: seq<nat>, i: nat): (r: seq<nat>)
    ensures i in r
    ensures forall j :: j in r ==> j == i || j in ids
  {
    var ids' := Forget(ids, i) + [i];
    if |ids'| <= MAX_REMEMBERED_CLOSED_STREAMS then ids'
    else
      assert ids'[1..][|ids'| - 2] == i;
      ids'[1..]
  }
}
