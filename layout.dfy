/**
 * The spatial search array's locations. Slot k (1 <= k <= set_size) stands
 * for the point on the array's circle at k times 360/set_size degrees; the
 * geometry itself is not modelled, only which slots exist and their order.
 */
module Layout {

  /** A location on the array's circle, numbered from 1. */
  type Slot = nat

  /** `order` rearranges 0..n-1: the outcome of shuffling a list of n items. */
  predicate IsPermutation(order: seq<nat>, n: nat)
  {
    && |order| == n
    && (forall k :: 0 <= k < n ==> order[k] < n)
    && (forall j, k :: 0 <= j < k < n ==> order[j] != order[k])
  }

  /** Every slot 1..n once and nothing else: a list of n distinct slots in that range. */
  predicate AllSlotsOnce(locs: seq<Slot>, n: nat)
  {
    && |locs| == n
    && (forall k :: 0 <= k < |locs| ==> 1 <= locs[k] <= n)
    && (forall j, k :: 0 <= j < k < |locs| ==> locs[j] != locs[k])
  }

  /**
   * Appends the set_size slots of the circle in order, then shuffles them:
   * the item at position k after the shuffle is the one that was at
   * position order[k].
   */
  method BuildLocations(setSize: nat, order: seq<nat>) returns (locs: seq<Slot>)
    requires IsPermutation(order, setSize)
    ensures AllSlotsOnce(locs, setSize)
    ensures forall k :: 0 <= k < setSize ==> locs[k] == order[k] + 1
  {
    var ring: seq<Slot> := [];
    for i := 0 to setSize
      invariant |ring| == i
      invariant forall k :: 0 <= k < i ==> ring[k] == k + 1
    {
      ring := ring + [i + 1];
    }
    locs := seq(setSize, k requires 0 <= k < setSize => ring[order[k]]);
  }

  /** Moving the last slot of a layout to the front keeps every slot once. */
  lemma TargetSlotFirst(itemLocs: seq<Slot>, target: Slot, n: nat)
    requires AllSlotsOnce(itemLocs + [target], n)
    ensures AllSlotsOnce([target] + itemLocs, n)
  {
    var before, after := itemLocs + [target], [target] + itemLocs;
    assert forall k :: 0 < k < |after| ==> after[k] == before[k - 1];
    assert after[0] == before[|itemLocs|];
  }
}
