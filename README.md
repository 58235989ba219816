# SSAT_line trial sequencing, in Dafny

This project models how the `SSAT_line` experiment sequences its trials. The
experiment is a visual search study with oriented lines. The search runs either
in space (a circular array) or in time (an RSVP stream of 16 lines). The model
covers the following, with the properties the code promises proved about it:

- Session setup: the participant group, three shuffled condition pools and the
  first modality.
- Per block: one condition pair is popped from the right pool, then the target
  tilt and the distractor tilts are set.
- Per trial: the spatial layout or the RSVP stream is prepared, and the three
  event tickets are registered.
- The stream is popped item by item while the in-stream response window is open.
- Each modality's response is resolved, feedback is decided and the result
  record is shaped.
- At the end of a block's quota, the modality is switched.

Modules, one concept each:

- `Lists`: Python's `reverse()` and repeated `pop()`. A pop on an empty list
  raises IndexError, modelled as `None`.
- `Conditions`: the vocabulary, the condition pools, the two groups' key maps
  and the modality-alternation rule.
- `Stimuli`: `create_stimuli`.
- `Layout`: spatial locations as numbered slots on the circle.
- `Rsvp`: `prepare_stream`.
- `Responses`: response resolution, the feedback decision and the result record.
- `Experiment`: class `SsatLine`, whose fields are the experiment object's
  attributes, and whose methods are `setup`, `block`, `trial_prep`,
  `present_array`, `present_stream`, the stream's collection loop, `trial` and
  `trial_clean_up`.

The host framework's randomness is given to the model as parameters:

| source call | model parameter |
|---|---|
| `random.choice` of the group and first modality | `group`, `firstSearchType` |
| `random.shuffle` of the pools | the shuffled pools, which must have the same elements as the literal pools |
| `random.shuffle` of the locations | `order`, a permutation |
| `randint(0, 179)` | `tilt` |
| `choice([-20, 20])` | `pad` |
| `randint(5, 12)` | `drawnTime` |
| each per-item `random.choice` of a distractor | `choices` |

Reaction times and stopwatch readings are `real` parameters. Key presses are
given as already registered by the collector.

## Model

| member | source | states |
|---|---|---|
| Lists.PopN | experiment.py:110-114 | n pops succeed iff the list holds at least n items (IndexError otherwise), yield n items and leave the first len-n in place |
| Lists.PopNReversed | experiment.py:192 | after `reverse()`, k successive pops yield the first k stream items in their original order and leave the rest, still reversed |
| Lists.PopNTakesSuffix | experiment.py:110-114 | k pops take the last k items, last one first, and leave the prefix untouched |
| Lists.PopAll | experiment.py:110-114 | popping a whole list yields it reversed and leaves it empty |
| Lists.PopOne | experiment.py:110 | one pop takes the last item and leaves the rest |
| Lists.Reversed | experiment.py:192 | `reverse()` keeps the length and puts item i at position len-1-i |
| Lists.ReversedTwice | experiment.py:192 | reversing twice restores the list |
| Lists.ReversedSameElements | experiment.py:192 | reversal keeps every item with its multiplicity |
| Conditions.PoolsHoldEveryPairOnce | experiment.py:92-95 | each literal pool holds each of the four condition pairs exactly once |
| Conditions.ShuffledPoolHasNoRepeats | experiment.py:92-99 | a shuffled pool holds no pair twice |
| Conditions.DrawsUseEachPairOnce | experiment.py:97-114 | four block draws from a shuffled pool use each pair exactly once and empty it; a fifth draw raises IndexError |
| Conditions.LabelOf | experiment.py:54-55 | the label a key is recorded as is the one whose key the group's map assigns it |
| Conditions.KeyForIsInverse | experiment.py:54-55 | key map and labels are inverse: the key for a label records that label |
| Conditions.GroupsDisagree | experiment.py:54-55 | groups A and B record every key with opposite labels |
| Conditions.NextSearchType | experiment.py:287-298 | the modality flips iff the trial number equals the block's quota (per-practice-block quota when practicing) |
| Conditions.NoFlipMidBlock | experiment.py:287-298 | over trials 1..n with n below the quota the modality never changes |
| Conditions.FlipAtQuota | experiment.py:287-298 | after the quota's last trial the modality is the other one |
| Stimuli.CreateStimuli | experiment.py:326-343 | tilts are [ref±20] for homogeneous distractors, exactly [ref+20, ref-20, ref+40, ref-40] otherwise, with ref the target tilt or tilt+90; one distractor line per tilt, in order |
| Stimuli.TargetStandsOut | experiment.py:327-338 | every distractor is 20-40 degrees off the target's orientation under target-distractor homogeneity, 50-70 degrees under heterogeneity |
| Layout.BuildLocations | experiment.py:181-186 | the shuffled location list holds each of the set_size slots exactly once, position k holding slot order[k]+1 |
| Layout.TargetSlotFirst | experiment.py:349-353 | drawing the target's slot before the others still draws every slot once |
| Rsvp.PrepareStream | experiment.py:357-373 | 16 items; present: target_time in 5..12 equal to the drawn value and only that item flagged, and it is the target; absent: target_time -1 and nothing flagged; every other item is the chosen distractor |
| Responses.SpatialOutcome | experiment.py:216-227 | a press is answered with its group's label and RT, and feedback fires iff that label is not the truth; no press gives "None", RT 'NA' and no feedback |
| Responses.TemporalOutcome | experiment.py:243-258 | an in-stream press wins with its own RT; otherwise a post-stream key with the stopwatch RT; otherwise "None" with 'NA'; feedback iff the response is not the truth, "None" included |
| Responses.FeedbackPolicy | experiment.py:220-258 | with a press both modalities decide feedback alike; without one, space shows none and time always shows it |
| Responses.GroupAPressesZOnPresentTrial | experiment.py:220-224 | group A pressing 'z' on a present trial is recorded "absent" and gets feedback |
| Responses.MakeRecord | experiment.py:262-279 | the record reads back as the trial's modality, response, truth and condition pair; practicing, block and trial numbers are stored as given; stimulus_type is LINE; only that modality's columns hold values, the other modality's are 'NA' |
| Experiment.SsatLine.Setup | experiment.py:38-102 | stores the group, the shuffled pools and the first modality; no pool repeats a pair; the general instructions are not yet shown |
| Experiment.SsatLine.Block | experiment.py:107-124 | pops exactly one pair, from the practice pool when practicing, else from the current modality's pool; that pool loses its last item and the others are unchanged; an empty pool is IndexError with nothing changed; target tilt and distractor tilts set as create_stimuli computes them |
| Experiment.SsatLine.TrialPrep | experiment.py:174-200 | target_onset reset; the pools and distractors lie outside its frame, so the session invariant survives; space: every slot once, set_size-1 distractor slots plus the target slot when present, all set_size when absent; time: a well-formed stream, stored reversed; tickets at 1000, 2000, 3000 ms |
| Experiment.SsatLine.LayOutArray | experiment.py:181-188 | the layout covers every slot once; present pops one slot for the target |
| Experiment.SsatLine.PrepareRsvp | experiment.py:190-192 | the stream is well-formed and stored reversed for popping |
| Experiment.SsatLine.RegisterEvents | experiment.py:195-200 | present_target at 1000, present_fixation at 2000, search_onset at 3000 |
| Experiment.PlaceDistractors | experiment.py:352-353 | one distractor per location, the chosen one, in location order |
| Experiment.SsatLine.PresentArray | experiment.py:345-355 | the drawn items cover each of the set_size slots exactly once; the target is among them iff present, first and at its own slot; after it, one chosen distractor at each of item_locs in order |
| Experiment.SsatLine.PresentStream | experiment.py:376-394 | pops the last item of the reversed stream (IndexError when empty); showing the target records its onset |
| Rsvp.HasTargetAppend | experiment.py:393-394 | one more shown item shows the target iff it was already shown or this item is it |
| Experiment.SsatLine.CollectDuringStream | experiment.py:230-238 | items come out in original stream order until the press interrupts or the stream runs out, leaving the rest still reversed; the onset is recorded iff the target was among the shown items |
| Experiment.SsatLine.Trial | experiment.py:216-279 | the feedback and the record are those of the modality's resolved outcome; a temporal trial shows the stream up to the in-stream press (all of it without one), leaves the rest reversed, and records the target onset iff the target was among the shown items |
| Experiment.SsatLine.TemporalSearch | experiment.py:228-258 | the resolved temporal outcome; without an in-stream press the stream is exhausted; the shown prefix, the rest still reversed and the target onset as in the stream window |
| Experiment.SsatLine.TrialCleanUp | experiment.py:287-298 | search_type becomes the modality-alternation rule's value |

## Left out

- Rendering and UI are not modelled. This covers `fill`, `blit`, `flip`, `clear`, `message`, `any_key`, the instruction and progress screens, `present_target`, `present_fixation`, `present_feedback` and `post_stream`. They are calls into the klibs framework. Feedback appears only as the boolean that would trigger `present_feedback`.
- Timing is not modelled. The `evm.before` polling, `CountDown` and `Stopwatch` waits, and the 10 s and 5 s collector time-outs depend on real time. RTs, the stream duration and the target onset are supplied readings.
- Geometry is not modelled (`deg_to_px`, `point_pos`, the `360.0 / set_size` angle step). Location i+1 is represented by slot number i+1.
- `ResponseCollector` and `KeyMap` internals are not modelled, including listener resets in `trial_clean_up`. A press is given with its key and RT. Only the group's key-to-label map is modelled.
- `insert_practice_block` and the host's block and trial counters are not modelled. Block and trial numbers, `practicing` and the quotas are parameters.
- SSAT_line_independent_variables.py is not part of this model. Its value domains become preconditions: `set_size` in {8, 12, 16, 20}, and present or absent.
- Experiment.SsatLine.Block: requires `pad` to be -20 or 20 even for heterogeneous distractors. The source draws `pad` only for homogeneous distractors, and the value is unused otherwise.
- Experiment.SsatLine.Block: sets the general-instructions flag on every successful block. The source sets it only if it was not yet set, which leaves the same value. The screen it guards is left out.
- Stimuli.CreateStimuli and Rsvp.PrepareStream: return the tilts, distractors, target time and stream instead of assigning attributes. The class methods assign them, so the fields end up as in the source.
- Experiment.SsatLine.Setup: the pool invariant is that no pool holds a pair twice. It is derived from the pools being shuffles of the literal four-pair lists. Their exact contents after later pops are stated by Block's PopN clauses.
- Experiment.SsatLine.CollectDuringStream: a press is given as the 0-based stream position on screen when it registered. Interruptions between items, and a press after the stream ends but before the window closes, are folded into that position.
- Experiment.SsatLine.TrialPrep: on absent spatial trials `target_loc` keeps its previous value, as in the source. It is never read on those trials.
