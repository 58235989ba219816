/**
 * The temporal search stream: a fixed-length sequence of lines shown one at
 * a time, each flagged with whether it is the target.
 */
module Rsvp {
  import opened Conditions
  import opened Stimuli

  /** One stream entry, the source's [item, is_target] pair. */
  datatype StreamItem = StreamItem(stim: Stim, isTarget: bool)

  const StreamLength: nat := 16

  /** First and last stream positions the target can take. */
  const EarliestTarget: int := 5
  const LatestTarget: int := 12

  /**
   * A well-formed stream for a trial: 16 items; when the target is present,
   * `targetTime` lies in 5..12 and exactly the item there is flagged and is
   * the target line; when absent, `targetTime` is -1 and nothing is flagged;
   * every unflagged item is one of the block's distractors.
   */
  ghost predicate StreamOk(items: seq<StreamItem>, presence: Presence, targetTime: int,
                           target: Stim, distractors: seq<Stim>)
  {
    && |items| == StreamLength
    && (presence == Present ==> EarliestTarget <= targetTime <= LatestTarget)
    && (presence == Absent ==> targetTime == -1)
    && (forall i :: 0 <= i < |items| ==> (items[i].isTarget <==> i == targetTime))
    && (forall i :: 0 <= i < |items| && items[i].isTarget ==> items[i].stim == target)
    && (forall i :: 0 <= i < |items| && !items[i].isTarget ==> items[i].stim in distractors)
  }

  /** Some item of `items` is the flagged target. */
  predicate HasTarget(items: seq<StreamItem>)
  {
    exists i :: 0 <= i < |items| && items[i].isTarget
  }

  /** Showing one more item shows the target iff it had been shown or this item is it. */
  lemma HasTargetAppend(items: seq<StreamItem>, x: StreamItem)
    ensures HasTarget(items + [x]) <==> HasTarget(items) || x.isTarget
  {
    var longer := items + [x];
    assert longer[|items|] == x;
    assert forall i :: 0 <= i < |items| ==> longer[i] == items[i];
  }

  /**
   * Builds the stream of one temporal trial. `drawnTime` is the value of
   * randint(5, 12), drawn only when the target is present; `choices[i]` is the
   * index of the distractor random.choice picks for position i.
   */
  method PrepareStream(presence: Presence, drawnTime: int, target: Stim,
                       distractors: seq<Stim>, choices: seq<nat>)
    returns (targetTime: int, items: seq<StreamItem>)
    requires presence == Present ==> EarliestTarget <= drawnTime <= LatestTarget
    requires |choices| == StreamLength
    requires forall i :: 0 <= i < |choices| ==> choices[i] < |distractors|
    ensures StreamOk(items, presence, targetTime, target, distractors)
    ensures presence == Present ==> targetTime == drawnTime
    ensures forall i :: 0 <= i < |items| && !items[i].isTarget ==> items[i].stim == distractors[choices[i]]
  {
    targetTime := if presence == Present then drawnTime else -1;
    items := [];
    for i := 0 to StreamLength
      invariant |items| == i
      invariant forall k :: 0 <= k < i ==> (items[k].isTarget <==> k == targetTime)
      invariant forall k :: 0 <= k < i && items[k].isTarget ==> items[k].stim == target
      invariant forall k :: 0 <= k < i && !items[k].isTarget ==> items[k].stim == distractors[choices[k]]
    {
      if i == targetTime {
        items := items + [StreamItem(target, true)];
      } else {
        items := items + [StreamItem(distractors[choices[i]], false)];
      }
    }
  }
}
