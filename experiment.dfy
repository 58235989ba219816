/**
 * The SSAT_line experiment's sequencer. Session state is set up once; each
 * block pops a condition pair and rebuilds the distractors; each trial lays
 * out the spatial array or prepares the RSVP stream, resolves the response,
 * returns a result record, and at the end of a block's quota switches the
 * search modality.
 */
module Experiment {
  import opened Lists
  import opened Conditions
  import opened Stimuli
  import opened Layout
  import opened Rsvp
  import opened Responses

  /** A trial event registered with the host's scheduler: its name and its offset in ms. */
  datatype Ticket = Ticket(name: string, onset: int)

  /** An item drawn in the spatial array: the line, its slot, and whether it is the target. */
  datatype Placed = Placed(stim: Stim, slot: Slot, isTarget: bool)

  /** A key press during the stream, registered while stream position `during` (from 0) is on screen. */
  datatype StreamPress = StreamPress(during: nat, press: Press)

  /** The press the in-stream collector keeps, given how many items the stream had left. */
  function InStream(streamPress: Option<StreamPress>, streamLeft: nat): Option<Press>
  {
    if streamPress.Some? && streamPress.value.during < streamLeft then Some(streamPress.value.press) else None
  }

  /** The slots of the drawn items, in drawing order. */
  function SlotsOf(placed: seq<Placed>): seq<Slot>
  {
    seq(|placed|, k requires 0 <= k < |placed| => placed[k].slot)
  }

  /** One distractor per location, the one `choices` picks for it, in location order. */
  method PlaceDistractors(locs: seq<Slot>, distractors: seq<Stim>, choices: seq<nat>)
    returns (placed: seq<Placed>)
    requires |choices| == |locs|
    requires forall i :: 0 <= i < |choices| ==> choices[i] < |distractors|
    ensures |placed| == |locs|
    ensures forall k :: 0 <= k < |locs| ==> placed[k] == Placed(distractors[choices[k]], locs[k], false)
  {
    placed := [];
    for i := 0 to |locs|
      invariant |placed| == i
      invariant forall k :: 0 <= k < i ==> placed[k] == Placed(distractors[choices[k]], locs[k], false)
    {
      placed := placed + [Placed(distractors[choices[i]], locs[i], false)];
    }
  }

  class SsatLine {
    /** Drawn once at setup; fixes the key map for the session. */
    var group: Group
    /** The shuffled condition pools; each block pops one pair from one of them. */
    var spatialPool: seq<Condition>
    var temporalPool: seq<Condition>
    var practicePool: seq<Condition>
    var searchType: SearchType
    var generalInstructShown: bool
    /** The current block's condition pair, target tilt and distractors. */
    var condition: Condition
    var targetTilt: int
    var distractorTilts: seq<int>
    var distractors: seq<Stim>
    /** The current trial's independent variables, sampled by the host. */
    var setSize: nat
    var presence: Presence
    /** The spatial layout: distractor slots and, on present trials, the target's slot. */
    var itemLocs: seq<Slot>
    var targetLoc: Option<Slot>
    /** The RSVP stream, reversed so that pop() yields it in order. */
    var rsvpStream: seq<StreamItem>
    /** The stream as it was prepared, in presentation order. */
    ghost var stream: seq<StreamItem>
    var targetTime: int
    /** When the target was shown ('NA' until then); a reading of the host's stopwatch. */
    var targetOnset: Option<real>
    var tickets: seq<Ticket>

    /**
     * No pool holds a pair twice (so no pair repeats before its pool is
     * exhausted), and there is one distractor line per distractor tilt.
     */
    ghost predicate Valid()
      reads this`spatialPool, this`temporalPool, this`practicePool, this`distractorTilts, this`distractors
    {
      && NoRepeats(spatialPool) && NoRepeats(temporalPool) && NoRepeats(practicePool)
      && |distractors| == |distractorTilts|
      && (forall i :: 0 <= i < |distractorTilts| ==> distractors[i] == Line(distractorTilts[i]))
    }

    /** The spatial layout covers every slot exactly once, the target's slot included when present. */
    ghost predicate SpatialLayoutOk()
      reads this`presence, this`targetLoc, this`itemLocs, this`setSize
    {
      if presence == Present then targetLoc.Some? && AllSlotsOnce(itemLocs + [targetLoc.value], setSize)
      else AllSlotsOnce(itemLocs, setSize)
    }

    function TargetItem(): Stim
      reads this`targetTilt
    {
      Line(targetTilt)
    }

    /** The pool the next block pops from: the practice pool, or the current modality's pool. */
    function DrawPool(practicing: bool): seq<Condition>
      reads this`practicePool, this`searchType, this`spatialPool, this`temporalPool
    {
      if practicing then practicePool else if searchType == Space then spatialPool else temporalPool
    }

    /**
     * Session setup: the group, the three pools as shuffled, and the first
     * modality, all drawn at random by the caller.
     */
    constructor Setup(group: Group, spatialShuffled: seq<Condition>, temporalShuffled: seq<Condition>,
                      practiceShuffled: seq<Condition>, firstSearchType: SearchType)
      requires multiset(spatialShuffled) == multiset(ExperimentalConditions)
      requires multiset(temporalShuffled) == multiset(ExperimentalConditions)
      requires multiset(practiceShuffled) == multiset(PracticeConditions)
      ensures Valid()
      ensures this.group == group && searchType == firstSearchType && !generalInstructShown
      ensures spatialPool == spatialShuffled && temporalPool == temporalShuffled
      ensures practicePool == practiceShuffled
    {
      ShuffledPoolHasNoRepeats(spatialShuffled, ExperimentalConditions);
      ShuffledPoolHasNoRepeats(temporalShuffled, ExperimentalConditions);
      ShuffledPoolHasNoRepeats(practiceShuffled, PracticeConditions);
      this.group := group;
      spatialPool, temporalPool, practicePool := spatialShuffled, temporalShuffled, practiceShuffled;
      searchType := firstSearchType;
      generalInstructShown := false;
      condition := Condition(Homo, Homo);
      targetTilt := 0;
      distractorTilts, distractors := [], [];
      setSize, presence := 0, Absent;
      itemLocs, targetLoc := [], None;
      rsvpStream, stream := [], [];
      targetTime, targetOnset := -1, None;
      tickets := [];
    }

    /**
     * Block start: pop the block's condition pair from the practice pool or
     * the current modality's pool (an empty pool raises IndexError, reported
     * as ok == false with nothing changed), draw the target tilt and rebuild
     * the distractors. `tilt` is randint(0, 179); `pad` is choice([-20, 20]).
     */
    method Block(practicing: bool, tilt: int, pad: int) returns (ok: bool)
      requires Valid()
      requires 0 <= tilt <= 179
      requires pad == 20 || pad == -20
      modifies this`spatialPool, this`temporalPool, this`practicePool, this`condition,
               this`targetTilt, this`distractorTilts, this`distractors, this`generalInstructShown
      ensures Valid()
      ensures ok <==> old(DrawPool(practicing)) != []
      ensures !ok ==> unchanged(this)
      ensures ok && practicing ==>
                && PopN(old(practicePool), 1) == Some(([condition], practicePool))
                && spatialPool == old(spatialPool) && temporalPool == old(temporalPool)
      ensures ok && !practicing && searchType == Space ==>
                && PopN(old(spatialPool), 1) == Some(([condition], spatialPool))
                && temporalPool == old(temporalPool) && practicePool == old(practicePool)
      ensures ok && !practicing && searchType == Time ==>
                && PopN(old(temporalPool), 1) == Some(([condition], temporalPool))
                && spatialPool == old(spatialPool) && practicePool == old(practicePool)
      ensures ok ==> targetTilt == tilt && generalInstructShown
      ensures ok ==> distractorTilts == DistractorTilts(RefAngle(tilt, condition.targetDistractor),
                                                        condition.distractorDistractor, pad)
    {
      var pool := DrawPool(practicing);
      if pool == [] {
        return false;
      }
      PopOne(pool);
      var rest := pool[..|pool| - 1];
      condition := pool[|pool| - 1];
      if practicing {
        practicePool := rest;
      } else if searchType == Space {
        spatialPool := rest;
      } else {
        temporalPool := rest;
      }
      ok := true;
      targetTilt := tilt;
      distractorTilts, distractors := CreateStimuli(targetTilt, condition, pad);
      generalInstructShown := true;
    }

    /**
     * Trial preparation. Spatial trials lay out set_size slots in shuffled
     * order (`order`) and, when the target is present, pop the last one as
     * the target's slot; temporal trials prepare the stream (`drawnTime`,
     * `choices` as in PrepareStream) and reverse it for popping. Both register
     * the three event tickets 1000 ms apart.
     */
    method TrialPrep(setSize: nat, presence: Presence, order: seq<nat>, drawnTime: int, choices: seq<nat>)
      requires setSize == 8 || setSize == 12 || setSize == 16 || setSize == 20
      requires searchType == Space ==> IsPermutation(order, setSize)
      requires searchType == Time ==> presence == Present ==> EarliestTarget <= drawnTime <= LatestTarget
      requires searchType == Time ==> |choices| == StreamLength
      requires searchType == Time ==> forall i :: 0 <= i < |choices| ==> choices[i] < |distractors|
      modifies this`setSize, this`presence, this`itemLocs, this`targetLoc, this`rsvpStream,
               this`stream, this`targetTime, this`targetOnset, this`tickets
      ensures this.setSize == setSize && this.presence == presence && targetOnset == None
      ensures tickets == [Ticket("present_target", 1000), Ticket("present_fixation", 2000),
                          Ticket("search_onset", 3000)]
      ensures searchType == Space ==>
                && SpatialLayoutOk()
                && |itemLocs| == (if presence == Present then setSize - 1 else setSize)
                && (presence == Absent ==> targetLoc == old(targetLoc))
                && rsvpStream == old(rsvpStream) && stream == old(stream) && targetTime == old(targetTime)
      ensures searchType == Time ==>
                && StreamOk(stream, presence, targetTime, TargetItem(), distractors)
                && (presence == Present ==> targetTime == drawnTime)
                && rsvpStream == Reversed(stream)
                && itemLocs == old(itemLocs) && targetLoc == old(targetLoc)
    {
      targetOnset := None;
      this.setSize, this.presence := setSize, presence;
      if searchType == Space {
        LayOutArray(order);
      } else {
        PrepareRsvp(drawnTime, choices);
      }
      RegisterEvents();
    }

    /**
     * The spatial branch of trial preparation: the set_size slots in shuffled
     * order, the last one popped as the target's slot when it is present.
     */
    method LayOutArray(order: seq<nat>)
      requires IsPermutation(order, setSize)
      requires setSize > 0
      modifies this`itemLocs, this`targetLoc
      ensures SpatialLayoutOk()
      ensures presence == Present ==> |itemLocs| == setSize - 1
      ensures presence == Absent ==> |itemLocs| == setSize && targetLoc == old(targetLoc)
    {
      var locs := BuildLocations(setSize, order);
      if presence == Present {
        var n := |locs|;
        targetLoc := Some(locs[n - 1]);
        itemLocs := locs[..n - 1];
        assert itemLocs + [targetLoc.value] == locs;
      } else {
        itemLocs := locs;
      }
    }

    /** The temporal branch of trial preparation: the stream, reversed for popping. */
    method PrepareRsvp(drawnTime: int, choices: seq<nat>)
      requires presence == Present ==> EarliestTarget <= drawnTime <= LatestTarget
      requires |choices| == StreamLength
      requires forall i :: 0 <= i < |choices| ==> choices[i] < |distractors|
      modifies this`rsvpStream, this`stream, this`targetTime
      ensures StreamOk(stream, presence, targetTime, TargetItem(), distractors)
      ensures rsvpStream == Reversed(stream)
      ensures presence == Present ==> targetTime == drawnTime
    {
      var time, items := PrepareStream(presence, drawnTime, TargetItem(), distractors, choices);
      targetTime, stream := time, items;
      rsvpStream := Reversed(items);
    }

    /** The trial's three event tickets, each 1000 ms after the one before. */
    method RegisterEvents()
      modifies this`tickets
      ensures tickets == [Ticket("present_target", 1000), Ticket("present_fixation", 2000),
                          Ticket("search_onset", 3000)]
    {
      var events := [Ticket("present_target", 1000)];
      events := events + [Ticket("present_fixation", events[|events| - 1].onset + 1000)];
      events := events + [Ticket("search_onset", events[|events| - 1].onset + 1000)];
      tickets := events;
    }

    /**
     * The spatial array: the target at its slot when present, then one
     * distractor per remaining slot (`choices[i]` is the random pick for slot
     * i). Exactly set_size items at distinct slots, the target among them iff
     * it is present.
     */
    method PresentArray(choices: seq<nat>) returns (placed: seq<Placed>)
      requires SpatialLayoutOk()
      requires |choices| == |itemLocs|
      requires forall i :: 0 <= i < |choices| ==> choices[i] < |distractors|
      ensures AllSlotsOnce(SlotsOf(placed), setSize)
      ensures forall k :: 0 <= k < |placed| ==> (placed[k].isTarget <==> presence == Present && k == 0)
      ensures presence == Present ==> |placed| > 0 && placed[0] == Placed(TargetItem(), targetLoc.value, true)
      ensures forall k :: 0 <= k < |placed| && !placed[k].isTarget ==> placed[k].stim in distractors
      ensures |placed| >= |itemLocs| &&
              forall k :: 0 <= k < |itemLocs| ==>
                placed[|placed| - |itemLocs| + k] == Placed(distractors[choices[k]], itemLocs[k], false)
    {
      var first: seq<Placed> := [];
      if presence == Present {
        first := [Placed(TargetItem(), targetLoc.value, true)];
      }
      var rest := PlaceDistractors(itemLocs, distractors, choices);
      placed := first + rest;
      ghost var slots := if presence == Present then [targetLoc.value] + itemLocs else itemLocs;
      if presence == Present {
        TargetSlotFirst(itemLocs, targetLoc.value, setSize);
      }
      assert SlotsOf(placed) == slots;
    }

    /**
     * The display callback of the temporal search: pop the next stream item
     * and show it. On an exhausted stream the pop raises IndexError (None).
     * Showing the target records the stopwatch reading `onsetTime`.
     */
    method PresentStream(onsetTime: real) returns (item: Option<StreamItem>)
      modifies this`rsvpStream, this`targetOnset
      ensures item.None? <==> old(rsvpStream) == []
      ensures item.Some? ==> item.value == old(rsvpStream)[|old(rsvpStream)| - 1]
      ensures item.Some? ==> rsvpStream == old(rsvpStream)[..|old(rsvpStream)| - 1]
      ensures item.None? ==> rsvpStream == old(rsvpStream)
      ensures targetOnset == if item.Some? && item.value.isTarget then Some(onsetTime) else old(targetOnset)
    {
      if rsvpStream == [] {
        return None;
      }
      var n := |rsvpStream|;
      item := Some(rsvpStream[n - 1]);
      rsvpStream := rsvpStream[..n - 1];
      if item.value.isTarget {
        targetOnset := Some(onsetTime);
      }
    }

    /**
     * The in-stream response window: the collector calls PresentStream once
     * per pass until a key is registered (it interrupts collection) or the
     * stream runs out, whose IndexError ends the window without a response.
     * `keyDuring` is the stream position on screen when the key was pressed.
     */
    method CollectDuringStream(keyDuring: Option<nat>, onsetTime: real)
      returns (responded: bool, shown: seq<StreamItem>)
      modifies this`rsvpStream, this`targetOnset
      ensures responded <==> keyDuring.Some? && keyDuring.value < |old(rsvpStream)|
      ensures |shown| == if responded then keyDuring.value + 1 else |old(rsvpStream)|
      ensures PopN(old(rsvpStream), |shown|) == Some((shown, rsvpStream))
      ensures old(rsvpStream) == Reversed(stream) ==>
                shown == stream[..|shown|] && rsvpStream == Reversed(stream[|shown|..])
      ensures targetOnset == if HasTarget(shown) then Some(onsetTime) else old(targetOnset)
    {
      responded, shown := false, [];
      var exhausted := false;
      while !responded && !exhausted
        invariant PopN(old(rsvpStream), |shown|) == Some((shown, rsvpStream))
        invariant responded ==> keyDuring == Some(|shown| - 1)
        invariant !responded ==> keyDuring.None? || keyDuring.value >= |shown|
        invariant exhausted ==> rsvpStream == []
        invariant targetOnset == if HasTarget(shown) then Some(onsetTime) else old(targetOnset)
        decreases |rsvpStream|, if responded || exhausted then 0 else 1
      {
        var item := PresentStream(onsetTime);
        match item {
          case None =>
            exhausted := true;
          case Some(x) =>
            ghost var before := shown;
            shown := shown + [x];
            HasTargetAppend(before, x);
            responded := keyDuring == Some(|shown| - 1);
        }
      }
      if old(rsvpStream) == Reversed(stream) {
        PopNReversed(stream, |shown|);
      }
    }

    /**
     * The search phase of a trial and its result record. Spatial trials take
     * the collector's press, if any; temporal trials run the stream, then, if
     * no key was pressed during it, the post-stream window (`postKey`, timed
     * `postRt`). `streamDuration` and `onsetTime` are stopwatch readings.
     */
    method Trial(practicing: bool, blockNum: int, trialNum: int,
                 spatialPress: Option<Press>, streamPress: Option<StreamPress>,
                 postKey: Option<Key>, postRt: real, streamDuration: real, onsetTime: real)
      returns (rec: TrialRecord, feedback: bool)
      modifies this`rsvpStream, this`targetOnset
      ensures searchType == Space ==>
                var o := SpatialOutcome(group, spatialPress, presence);
                && feedback == o.feedback
                && rec == MakeRecord(practicing, blockNum, trialNum, Space, presence, setSize, condition,
                                     targetTime, streamDuration, targetOnset, o)
                && rsvpStream == old(rsvpStream) && targetOnset == old(targetOnset)
      ensures searchType == Time ==>
                var o := TemporalOutcome(group, InStream(streamPress, |old(rsvpStream)|), postKey, postRt, presence);
                && feedback == o.feedback
                && rec == MakeRecord(practicing, blockNum, trialNum, Time, presence, setSize, condition,
                                     targetTime, streamDuration, targetOnset, o)
      ensures searchType == Time && InStream(streamPress, |old(rsvpStream)|).None? ==> rsvpStream == []
      ensures searchType == Time && old(rsvpStream) == Reversed(stream) ==>
                var n := if InStream(streamPress, |stream|).Some? then streamPress.value.during + 1 else |stream|;
                && rsvpStream == Reversed(stream[n..])
                && targetOnset == if HasTarget(stream[..n]) then Some(onsetTime) else old(targetOnset)
    {
      var outcome: Outcome;
      if searchType == Space {
        outcome := SpatialOutcome(group, spatialPress, presence);
      } else {
        outcome := TemporalSearch(streamPress, postKey, postRt, onsetTime);
      }
      feedback := outcome.feedback;
      rec := MakeRecord(practicing, blockNum, trialNum, searchType, presence, setSize, condition,
                        targetTime, streamDuration, targetOnset, outcome);
    }

    /**
     * The temporal branch of the search phase: the in-stream window, then the
     * post-stream window when no key was pressed during the stream.
     */
    method TemporalSearch(streamPress: Option<StreamPress>, postKey: Option<Key>, postRt: real, onsetTime: real)
      returns (outcome: Outcome)
      modifies this`rsvpStream, this`targetOnset
      ensures outcome == TemporalOutcome(group, InStream(streamPress, |old(rsvpStream)|), postKey, postRt, presence)
      ensures InStream(streamPress, |old(rsvpStream)|).None? ==> rsvpStream == []
      ensures old(rsvpStream) == Reversed(stream) ==>
                var n := if InStream(streamPress, |stream|).Some? then streamPress.value.during + 1 else |stream|;
                && rsvpStream == Reversed(stream[n..])
                && targetOnset == if HasTarget(stream[..n]) then Some(onsetTime) else old(targetOnset)
    {
      var keyDuring := if streamPress.Some? then Some(streamPress.value.during) else None;
      var responded, shown := CollectDuringStream(keyDuring, onsetTime);
      var inStream := if responded then Some(streamPress.value.press) else None;
      outcome := TemporalOutcome(group, inStream, postKey, postRt, presence);
    }

    /** Trial clean-up: switch modality when the trial number reaches the block's quota. */
    method TrialCleanUp(practicing: bool, trialNumber: int, trialsPerBlock: int, trialsPerPracticeBlock: int)
      modifies this`searchType
      ensures searchType == NextSearchType(old(searchType), practicing, trialNumber,
                                           trialsPerBlock, trialsPerPracticeBlock)
    {
      if !practicing {
        if trialNumber == trialsPerBlock {
          searchType := if searchType == Space then Time else Space;
        }
      } else {
        if trialNumber == trialsPerPracticeBlock {
          searchType := if searchType == Space then Time else Space;
        }
      }
    }
  }
}
