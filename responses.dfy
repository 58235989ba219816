/**
 * Resolving a trial's response in each search modality, deciding whether the
 * "Incorrect!" feedback screen is shown, and shaping the trial's result record.
 */
module Responses {
  import opened Lists
  import opened Conditions

  /** A key press the response collector recorded, with its reaction time. */
  datatype Press = Press(key: Key, rt: real)

  /** A resolved response: a label, or the string "None" when no key was pressed. */
  datatype Response = Answered(answer: Presence) | NoResponse

  /**
   * How a search phase ended: the response, its reaction time (None is the
   * record's 'NA'), and whether the feedback screen is shown.
   */
  datatype Outcome = Outcome(response: Response, rt: Option<real>, feedback: bool)

  /**
   * Spatial search: a recorded press is read through the group's key map and
   * earns feedback when its label is not the truth; no press is "None" with
   * no reaction time and, unlike the temporal branch, no feedback.
   */
  function SpatialOutcome(group: Group, press: Option<Press>, truth: Presence): (o: Outcome)
    ensures o.response.Answered? <==> press.Some?
    ensures press.Some? ==> KeyFor(group, o.response.answer) == press.value.key && o.rt == Some(press.value.rt)
    ensures press.None? ==> o.rt == None
    ensures o.feedback <==> o.response.Answered? && o.response.answer != truth
  {
    match press
    case None => Outcome(NoResponse, None, false)
    case Some(p) =>
      var answer := LabelOf(group, p.key);
      Outcome(Answered(answer), Some(p.rt), answer != truth)
  }

  /**
   * Temporal search: a press during the stream wins with its own reaction
   * time; otherwise a press in the post-stream window counts, timed by the
   * stopwatch started before the stream (`postRt`, in ms); otherwise "None".
   * Feedback is shown whenever the response is not the truth, "None" included.
   */
  function TemporalOutcome(group: Group, inStream: Option<Press>, postKey: Option<Key>,
                           postRt: real, truth: Presence): (o: Outcome)
    ensures o.response == NoResponse <==> inStream.None? && postKey.None?
    ensures inStream.Some? ==>
              KeyFor(group, o.response.answer) == inStream.value.key && o.rt == Some(inStream.value.rt)
    ensures inStream.None? && postKey.Some? ==>
              KeyFor(group, o.response.answer) == postKey.value && o.rt == Some(postRt)
    ensures o.response == NoResponse ==> o.rt == None
    ensures o.feedback <==> o.response != Answered(truth)
  {
    var (response, rt) :=
      match inStream
      case Some(p) => (Answered(LabelOf(group, p.key)), Some(p.rt))
      case None =>
        match postKey
        case Some(k) => (Answered(LabelOf(group, k)), Some(postRt))
        case None => (NoResponse, None);
    Outcome(response, rt, response != Answered(truth))
  }

  /**
   * With a key press both modalities decide feedback alike; they differ only
   * when nothing was pressed: no feedback in space, feedback in time.
   */
  lemma FeedbackPolicy(group: Group, press: Option<Press>, postRt: real, truth: Presence)
    ensures press.Some? ==>
              SpatialOutcome(group, press, truth).feedback == TemporalOutcome(group, press, None, postRt, truth).feedback
    ensures press.None? ==>
              !SpatialOutcome(group, press, truth).feedback && TemporalOutcome(group, None, None, postRt, truth).feedback
  {
  }

  /** Group A, target present, 'z' pressed: the response is "absent" and feedback is shown. */
  lemma GroupAPressesZOnPresentTrial(rt: real)
    ensures SpatialOutcome(A, Some(Press(Z, rt)), Present) == Outcome(Answered(Absent), Some(rt), true)
  {
  }

  /** A field of the result record: a string, a number, or 'NA'. */
  datatype Value = Text(s: string) | Int(i: int) | Real(r: real) | NA

  /** The result record returned by a trial, one field per column. */
  datatype TrialRecord = TrialRecord(
    practicing: Value, blockNum: Value, trialNum: Value, searchType: Value,
    stimulusType: Value, presentAbsent: Value, setSize: Value,
    targetDistractor: Value, distractorDistractor: Value,
    targetTime: Value, streamDuration: Value, targetOnset: Value,
    spatialResponse: Value, spatialRt: Value,
    temporalResponse: Value, temporalRt: Value)

  function SearchTypeName(st: SearchType): string
  {
    if st == Space then "space" else "time"
  }

  function RelationName(r: Relation): string
  {
    if r == Homo then "homo" else "hetero"
  }

  function PresenceName(p: Presence): string
  {
    if p == Present then "present" else "absent"
  }

  function ResponseValue(r: Response): Value
  {
    match r
    case Answered(a) => Text(PresenceName(a))
    case NoResponse => Text("None")
  }

  function RtValue(rt: Option<real>): Value
  {
    match rt
    case Some(x) => Real(x)
    case None => NA
  }

  /** The modality a record's search_type column names, read back. */
  function RecordedSearchType(rec: TrialRecord): Option<SearchType>
  {
    if rec.searchType == Text("space") then Some(Space)
    else if rec.searchType == Text("time") then Some(Time)
    else None
  }

  /** The response a record holds, read back from the column of its modality. */
  function RecordedResponse(rec: TrialRecord): Option<Response>
  {
    var column := if RecordedSearchType(rec) == Some(Space) then rec.spatialResponse else rec.temporalResponse;
    if column == Text("present") then Some(Answered(Present))
    else if column == Text("absent") then Some(Answered(Absent))
    else if column == Text("None") then Some(NoResponse)
    else None
  }

  /** The truth a record's present_absent column holds, read back. */
  function RecordedPresence(rec: TrialRecord): Option<Presence>
  {
    if rec.presentAbsent == Text("present") then Some(Present)
    else if rec.presentAbsent == Text("absent") then Some(Absent)
    else None
  }

  function RelationOf(v: Value): Option<Relation>
  {
    if v == Text("homo") then Some(Homo)
    else if v == Text("hetero") then Some(Hetero)
    else None
  }

  /** The condition pair a record's two condition columns hold, read back. */
  function RecordedCondition(rec: TrialRecord): Option<Condition>
  {
    match (RelationOf(rec.targetDistractor), RelationOf(rec.distractorDistractor))
    case (Some(td), Some(dd)) => Some(Condition(td, dd))
    case _ => None
  }

  /**
   * The trial's result record. Only the columns of the trial's modality hold
   * values; the other modality's columns are 'NA'. `outcome` is the resolved
   * response of the modality that ran.
   */
  function MakeRecord(practicing: bool, blockNum: int, trialNum: int, st: SearchType,
                      truth: Presence, setSize: int, condition: Condition, targetTime: int,
                      streamDuration: real, targetOnset: Option<real>, outcome: Outcome): (rec: TrialRecord)
    ensures RecordedSearchType(rec) == Some(st)
    ensures RecordedResponse(rec) == Some(outcome.response)
    ensures RecordedPresence(rec) == Some(truth)
    ensures RecordedCondition(rec) == Some(condition)
    ensures rec.practicing == Text(if practicing then "True" else "False")
    ensures rec.blockNum == Int(blockNum) && rec.trialNum == Int(trialNum)
    ensures rec.stimulusType == Text("LINE")
    ensures st == Space ==>
              && rec.setSize == Int(setSize) && rec.spatialRt == RtValue(outcome.rt)
              && rec.targetTime == NA && rec.streamDuration == NA && rec.targetOnset == NA
              && rec.temporalResponse == NA && rec.temporalRt == NA
    ensures st == Time ==>
              && rec.targetTime == Int(targetTime) && rec.streamDuration == Real(streamDuration)
              && rec.targetOnset == RtValue(targetOnset) && rec.temporalRt == RtValue(outcome.rt)
              && rec.setSize == NA && rec.spatialResponse == NA && rec.spatialRt == NA
  {
    var space := st == Space;
    TrialRecord(
      practicing := Text(if practicing then "True" else "False"),
      blockNum := Int(blockNum),
      trialNum := Int(trialNum),
      searchType := Text(SearchTypeName(st)),
      stimulusType := Text("LINE"),
      presentAbsent := Text(PresenceName(truth)),
      setSize := if space then Int(setSize) else NA,
      targetDistractor := Text(RelationName(condition.targetDistractor)),
      distractorDistractor := Text(RelationName(condition.distractorDistractor)),
      targetTime := if !space then Int(targetTime) else NA,
      streamDuration := if !space then Real(streamDuration) else NA,
      targetOnset := if !space then RtValue(targetOnset) else NA,
      spatialResponse := if space then ResponseValue(outcome.response) else NA,
      spatialRt := if space then RtValue(outcome.rt) else NA,
      temporalResponse := if !space then ResponseValue(outcome.response) else NA,
      temporalRt := if !space then RtValue(outcome.rt) else NA)
  }
}
