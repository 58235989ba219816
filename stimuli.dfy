/**
 * The stimuli of a block: the target line at a random tilt and the
 * distractor lines whose tilts derive from it and the block's condition pair.
 */
module Stimuli {
  import opened Conditions

  /** A tilted line segment; its tilt is in degrees. */
  datatype Stim = Line(tilt: int)

  /**
   * The angle the distractor tilts are offset from: the target's own tilt when
   * target and distractors are homogeneous, that tilt plus 90 otherwise.
   */
  function RefAngle(targetTilt: int, targetDistractor: Relation): int
  {
    if targetDistractor == Homo then targetTilt else targetTilt + 90
  }

  /**
   * The distractor tilts around a reference angle: a single tilt at the drawn
   * pad (homogeneous distractors), or four tilts at +20, -20, +40, -40.
   */
  function DistractorTilts(ref: int, distractorDistractor: Relation, pad: int): seq<int>
  {
    if distractorDistractor == Homo then [ref + pad]
    else [ref + 20, ref - 20, ref + 40, ref - 40]
  }

  /** The smaller angle between two line orientations (a line repeats every 180 degrees). */
  function LineAngleDistance(a: int, b: int): (d: int)
    ensures 0 <= d <= 90
  {
    var r := (a - b) % 180;
    if r <= 90 then r else 180 - r
  }

  /**
   * Builds the block's distractor tilts (one, or four in a fixed order) and
   * one distractor line per tilt. `pad` is the random choice of -20 or 20,
   * drawn only for homogeneous distractors.
   */
  method CreateStimuli(targetTilt: int, condition: Condition, pad: int)
    returns (tilts: seq<int>, distractors: seq<Stim>)
    requires condition.distractorDistractor == Homo ==> pad == 20 || pad == -20
    ensures tilts == DistractorTilts(RefAngle(targetTilt, condition.targetDistractor),
                                     condition.distractorDistractor, pad)
    ensures condition.distractorDistractor == Homo ==>
              |tilts| == 1 &&
              (tilts[0] == RefAngle(targetTilt, condition.targetDistractor) + 20 ||
               tilts[0] == RefAngle(targetTilt, condition.targetDistractor) - 20)
    ensures |distractors| == |tilts|
    ensures forall i :: 0 <= i < |tilts| ==> distractors[i] == Line(tilts[i])
  {
    var ref := RefAngle(targetTilt, condition.targetDistractor);
    tilts := [];
    if condition.distractorDistractor == Homo {
      tilts := tilts + [ref + pad];
    } else {
      for i := 1 to 3
        invariant tilts == DistractorTilts(ref, Hetero, pad)[..2 * (i - 1)]
      {
        tilts := tilts + [ref + 20 * i, ref - 20 * i];
      }
    }
    distractors := [];
    for j := 0 to |tilts|
      invariant |distractors| == j
      invariant forall k :: 0 <= k < j ==> distractors[k] == Line(tilts[k])
    {
      distractors := distractors + [Line(tilts[j])];
    }
  }

  /**
   * Every distractor differs from the target's orientation: by 20 to 40
   * degrees when target and distractors are homogeneous, by 50 to 70 degrees
   * when they are heterogeneous.
   */
  lemma TargetStandsOut(targetTilt: int, condition: Condition, pad: int)
    requires condition.distractorDistractor == Homo ==> pad == 20 || pad == -20
    ensures forall t :: t in DistractorTilts(RefAngle(targetTilt, condition.targetDistractor),
                                             condition.distractorDistractor, pad) ==>
              if condition.targetDistractor == Homo
              then 20 <= LineAngleDistance(t, targetTilt) <= 40
              else 50 <= LineAngleDistance(t, targetTilt) <= 70
  {
  }
}
