/**
 * The experiment's vocabulary (search modality, homogeneity relations,
 * condition pairs, response labels and keys, participant groups), the
 * condition pools set up once per session, the two groups' key maps, and the
 * rule that alternates the search modality when a block's quota is reached.
 */
module Conditions {
  import opened Lists

  /** Search modality: a circular array (space) or an RSVP stream (time). */
  datatype SearchType = Space | Time

  /** Whether orientations cluster near (Homo) or spread around (Hetero) a reference. */
  datatype Relation = Homo | Hetero

  /** A [target_distractor, distractor_distractor] condition pair. */
  datatype Condition = Condition(targetDistractor: Relation, distractorDistractor: Relation)

  /** Whether the target is in the display; also the two response labels. */
  datatype Presence = Present | Absent

  /** The participant group drawn at setup; it fixes the key map for the session. */
  datatype Group = A | B

  /** The two response keys, 'z' and '/'. */
  datatype Key = Z | Slash

  /** Each experimental pool (one per modality) before it is shuffled. */
  const ExperimentalConditions: seq<Condition> :=
    [Condition(Homo, Hetero), Condition(Homo, Homo), Condition(Hetero, Homo), Condition(Hetero, Hetero)]

  /** The practice pool, shared by both modalities, before it is shuffled. */
  const PracticeConditions: seq<Condition> :=
    [Condition(Hetero, Homo), Condition(Hetero, Hetero), Condition(Homo, Hetero), Condition(Homo, Homo)]

  /** Every condition pair occurs exactly once in each pool. */
  lemma PoolsHoldEveryPairOnce(c: Condition)
    ensures multiset(ExperimentalConditions)[c] == 1
    ensures multiset(PracticeConditions)[c] == 1
  {
    assert ExperimentalConditions == [Condition(Homo, Hetero), Condition(Homo, Homo)]
                                     + [Condition(Hetero, Homo), Condition(Hetero, Hetero)];
    match c
    case Condition(Homo, Homo) =>
    case Condition(Homo, Hetero) =>
    case Condition(Hetero, Homo) =>
    case Condition(Hetero, Hetero) =>
  }

  /** A shuffled pool holds no pair twice. */
  lemma ShuffledPoolHasNoRepeats(pool: seq<Condition>, full: seq<Condition>)
    requires full == ExperimentalConditions || full == PracticeConditions
    requires multiset(pool) == multiset(full)
    ensures NoRepeats(pool)
  {
    forall j, k | 0 <= j < k < |pool| ensures pool[j] != pool[k] {
      PoolsHoldEveryPairOnce(pool[j]);
      EqualItemsCountTwice(pool, j, k);
    }
  }

  /**
   * Four successive block draws from a shuffled pool use each condition pair
   * exactly once and empty the pool; a fifth draw raises IndexError.
   */
  lemma DrawsUseEachPairOnce(pool: seq<Condition>, full: seq<Condition>)
    requires full == ExperimentalConditions || full == PracticeConditions
    requires multiset(pool) == multiset(full)
    ensures PopN(pool, 4).Some? && PopN(pool, 4).value.1 == []
    ensures forall c :: multiset(PopN(pool, 4).value.0)[c] == 1
    ensures PopN(pool, 5) == None
  {
    assert |pool| == 4 by {
      assert |multiset(pool)| == |pool| && |multiset(full)| == |full|;
    }
    PopAll(pool);
    ReversedSameElements(pool);
    forall c: Condition ensures multiset(PopN(pool, 4).value.0)[c] == 1 {
      PoolsHoldEveryPairOnce(c);
    }
  }

  /**
   * The label a key press is recorded as. Group A's map sends 'z' to absent
   * and '/' to present; group B's map is the other way round.
   */
  function LabelOf(group: Group, key: Key): (answer: Presence)
    ensures KeyFor(group, answer) == key
  {
    match (group, key)
    case (A, Z) => Absent
    case (A, Slash) => Present
    case (B, Z) => Present
    case (B, Slash) => Absent
  }

  /** The key that the group's instructions ask for, for a label. */
  function KeyFor(group: Group, answer: Presence): Key
  {
    match (group, answer)
    case (A, Present) => Slash
    case (A, Absent) => Z
    case (B, Present) => Z
    case (B, Absent) => Slash
  }

  /** The instructions and the key map agree: the named key records the label. */
  lemma KeyForIsInverse(group: Group, answer: Presence)
    ensures LabelOf(group, KeyFor(group, answer)) == answer
  {
  }

  /** The two groups' key maps give every key opposite labels. */
  lemma GroupsDisagree(key: Key)
    ensures LabelOf(A, key) != LabelOf(B, key)
  {
  }

  function Flip(st: SearchType): SearchType
  {
    if st == Space then Time else Space
  }

  /** A block's trial quota: trials_per_practice_block when practicing, else trials_per_block. */
  function Quota(practicing: bool, trialsPerBlock: int, trialsPerPracticeBlock: int): int
  {
    if practicing then trialsPerPracticeBlock else trialsPerBlock
  }

  /** The modality after one trial's clean-up. */
  function NextSearchType(st: SearchType, practicing: bool, trialNumber: int,
                          trialsPerBlock: int, trialsPerPracticeBlock: int): (next: SearchType)
    ensures next != st <==> trialNumber == Quota(practicing, trialsPerBlock, trialsPerPracticeBlock)
  {
    if trialNumber == Quota(practicing, trialsPerBlock, trialsPerPracticeBlock) then Flip(st) else st
  }

  /** The modality once trials 1..n of a block have each been cleaned up. */
  function AfterTrials(st: SearchType, practicing: bool, n: nat,
                       trialsPerBlock: int, trialsPerPracticeBlock: int): SearchType
  {
    if n == 0 then st
    else NextSearchType(AfterTrials(st, practicing, n - 1, trialsPerBlock, trialsPerPracticeBlock),
                        practicing, n, trialsPerBlock, trialsPerPracticeBlock)
  }

  /** The modality never changes before the last trial of a block. */
  lemma {:induction false} NoFlipMidBlock(st: SearchType, practicing: bool, n: nat,
                                          trialsPerBlock: int, trialsPerPracticeBlock: int)
    requires n < Quota(practicing, trialsPerBlock, trialsPerPracticeBlock)
    ensures AfterTrials(st, practicing, n, trialsPerBlock, trialsPerPracticeBlock) == st
  {
    if n > 0 {
      NoFlipMidBlock(st, practicing, n - 1, trialsPerBlock, trialsPerPracticeBlock);
    }
  }

  /** After the block's last trial, the next block runs in the other modality. */
  lemma FlipAtQuota(st: SearchType, practicing: bool, trialsPerBlock: int, trialsPerPracticeBlock: int)
    requires Quota(practicing, trialsPerBlock, trialsPerPracticeBlock) >= 1
    ensures AfterTrials(st, practicing, Quota(practicing, trialsPerBlock, trialsPerPracticeBlock) as nat,
                        trialsPerBlock, trialsPerPracticeBlock) == Flip(st)
  {
    var q := Quota(practicing, trialsPerBlock, trialsPerPracticeBlock);
    NoFlipMidBlock(st, practicing, q - 1, trialsPerBlock, trialsPerPracticeBlock);
  }
}
