/**
 * The walkthrough state machine: a table from (status, action) to the next
 * status, two of whose cells branch on the inbox's tracking type, and
 * `transition`, which applies it to a settings object in place.
 */
module WalkthroughMachine {
  import opened Wrappers
  import opened Json
  import opened Inboxes
  import opened SettingsV2

  /** The states of the table, each stored under its own name. */
  datatype Step =
    | Unstarted
    | SetCompareFileOrFolder
    | SetCompareType
    | SetInboxPath
    | RestartObsidian
    | Completed

  /** `WalkthroughActions`. */
  datatype Action = Next | Previous

  /** A table cell: one status, or one per tracking type. */
  datatype Cell = To(step: Step) | ByTrackingType(note: Step, folder: Step)

  function StepName(s: Step): string {
    match s
    case Unstarted => "unstarted"
    case SetCompareFileOrFolder => "setCompareFileOrFolder"
    case SetCompareType => "setCompareType"
    case SetInboxPath => "setInboxPath"
    case RestartObsidian => "restartObsidian"
    case Completed => "completed"
  }

  /** `machine.states[name]`: the state with that name, if any. */
  function StepNamed(name: string): (r: Option<Step>)
    ensures r.Some? ==> StepName(r.value) == name
    ensures r.None? ==> forall s: Step :: StepName(s) != name
  {
    if name == "unstarted" then Some(Unstarted)
    else if name == "setCompareFileOrFolder" then Some(SetCompareFileOrFolder)
    else if name == "setCompareType" then Some(SetCompareType)
    else if name == "setInboxPath" then Some(SetInboxPath)
    else if name == "restartObsidian" then Some(RestartObsidian)
    else if name == "completed" then Some(Completed)
    else None
  }

  /** `machine.states[s][a]`; None where the table has no entry. */
  function Table(s: Step, a: Action): Option<Cell> {
    match (s, a)
    case (Unstarted, Next) => Some(To(SetCompareFileOrFolder))
    case (SetCompareFileOrFolder, Next) => Some(ByTrackingType(SetCompareType, SetInboxPath))
    case (SetCompareType, Previous) => Some(To(SetCompareFileOrFolder))
    case (SetCompareType, Next) => Some(To(SetInboxPath))
    case (SetInboxPath, Previous) => Some(ByTrackingType(SetCompareType, SetCompareFileOrFolder))
    case (SetInboxPath, Next) => Some(To(RestartObsidian))
    case (RestartObsidian, Previous) => Some(To(SetInboxPath))
    case (RestartObsidian, Next) => Some(To(Completed))
    case (Completed, Previous) => Some(To(RestartObsidian))
    case _ => None
  }

  /**
   * The status after `action` from `s` when the acting inbox tracks
   * `trackingType`; a pair without an entry keeps the status.
   */
  function Transitioned(s: Step, trackingType: TrackingType, action: Action): Step {
    match Table(s, action)
    case None => s
    case Some(To(to)) => to
    case Some(ByTrackingType(note, folder)) => if trackingType == Note then note else folder
  }

  /**
   * `transition(state, action)`, with the tracking type passed in.  The object
   * is updated in place and returned; a status that names no state of the
   * table makes `machine.states[status][action]` throw (None).
   */
  method Transition(state: Settings, trackingType: TrackingType, action: Action) returns (r: Option<Settings>)
    modifies state
    ensures StepNamed(old(state.walkthroughStatus)).None? ==>
              r.None? && state.walkthroughStatus == old(state.walkthroughStatus)
    ensures StepNamed(old(state.walkthroughStatus)).Some? ==>
              r == Some(state) &&
              state.walkthroughStatus == StepName(Transitioned(StepNamed(old(state.walkthroughStatus)).value, trackingType, action))
    ensures state.inboxes == old(state.inboxes)
  {
    var from := StepNamed(state.walkthroughStatus);
    if from.None? {
      return None;
    }
    var to := Table(from.value, action);
    if to.Some? {
      match to.value
      case To(step) =>
        state.walkthroughStatus := StepName(step);
      case ByTrackingType(note, folder) =>
        state.walkthroughStatus := StepName(if trackingType == Note then note else folder);
    }
    return Some(state);
  }

  // ---------------------------------------------------------------------------
  // Properties of the table

  /** `next` from setCompareFileOrFolder forks on the tracking type; `previous` from setInboxPath mirrors it. */
  lemma Fork()
    ensures Transitioned(SetCompareFileOrFolder, Note, Next) == SetCompareType
    ensures Transitioned(SetCompareFileOrFolder, Folder, Next) == SetInboxPath
    ensures Transitioned(SetInboxPath, Note, Previous) == SetCompareType
    ensures Transitioned(SetInboxPath, Folder, Previous) == SetCompareFileOrFolder
  {
  }

  /** Every other move ignores the tracking type. */
  lemma Unconditional(t: TrackingType)
    ensures Transitioned(Unstarted, t, Next) == SetCompareFileOrFolder
    ensures Transitioned(SetCompareType, t, Next) == SetInboxPath
    ensures Transitioned(SetInboxPath, t, Next) == RestartObsidian
    ensures Transitioned(RestartObsidian, t, Next) == Completed
    ensures Transitioned(SetCompareType, t, Previous) == SetCompareFileOrFolder
    ensures Transitioned(RestartObsidian, t, Previous) == SetInboxPath
    ensures Transitioned(Completed, t, Previous) == RestartObsidian
  {
  }

  /** Exactly three pairs have no entry, and those keep the status. */
  lemma MissingEntries(s: Step, t: TrackingType, a: Action)
    ensures Table(s, a).None? <==>
            (s, a) == (Unstarted, Previous) || (s, a) == (SetCompareFileOrFolder, Previous) || (s, a) == (Completed, Next)
    ensures Table(s, a).None? ==> Transitioned(s, t, a) == s
  {
  }

  /**
   * With the tracking type held fixed, `previous` undoes `next` exactly from
   * setCompareFileOrFolder, setInboxPath and restartObsidian, and from
   * setCompareType for a note inbox only.
   */
  lemma PreviousUndoesNext(s: Step, t: TrackingType)
    ensures Transitioned(Transitioned(s, t, Next), t, Previous) == s <==>
            s == SetCompareFileOrFolder || s == SetInboxPath || s == RestartObsidian ||
            (s == SetCompareType && t == Note)
  {
  }

  /** The position of a state along the forward path. */
  function Rank(s: Step): nat {
    match s
    case Unstarted => 0
    case SetCompareFileOrFolder => 1
    case SetCompareType => 2
    case SetInboxPath => 3
    case RestartObsidian => 4
    case Completed => 5
  }

  /** `next` always moves forward until completed, `previous` always back where it moves. */
  lemma Direction(s: Step, t: TrackingType)
    ensures s != Completed ==> Rank(Transitioned(s, t, Next)) > Rank(s)
    ensures Transitioned(s, t, Previous) != s ==> Rank(Transitioned(s, t, Previous)) < Rank(s)
  {
  }

  /** The status after `n` presses of "next". */
  function NextTimes(s: Step, t: TrackingType, n: nat): Step
    decreases n
  {
    if n == 0 then s else NextTimes(Transitioned(s, t, Next), t, n - 1)
  }

  lemma {:induction false} CompletedStays(t: TrackingType, n: nat)
    ensures NextTimes(Completed, t, n) == Completed
  {
    if n > 0 {
      CompletedStays(t, n - 1);
    }
  }

  /**
   * From unstarted, "next" reaches completed in exactly five presses for a
   * note inbox and four for a folder inbox, and stays there.
   */
  lemma {:induction false} RunToCompletion(n: nat)
    ensures NextTimes(Unstarted, Note, n) == Completed <==> n >= 5
    ensures NextTimes(Unstarted, Folder, n) == Completed <==> n >= 4
  {
    assert NextTimes(Unstarted, Note, 5) == NextTimes(Completed, Note, 0);
    assert NextTimes(Unstarted, Folder, 4) == NextTimes(Completed, Folder, 0);
    if n >= 5 {
      CompletedStays(Note, n - 5);
      NextTimesSplit(Unstarted, Note, 5, n - 5);
    }
    if n >= 4 {
      CompletedStays(Folder, n - 4);
      NextTimesSplit(Unstarted, Folder, 4, n - 4);
    }
  }

  lemma {:induction false} NextTimesSplit(s: Step, t: TrackingType, m: nat, n: nat)
    ensures NextTimes(s, t, m + n) == NextTimes(NextTimes(s, t, m), t, n)
    decreases m
  {
    if m > 0 {
      NextTimesSplit(Transitioned(s, t, Next), t, m - 1, n);
    }
  }

  // ---------------------------------------------------------------------------
  // The transition as written

  /**
   * The status `transition` stores as written: a branch cell is indexed with
   * the `trackingType` property of the settings object itself, and yields
   * `undefined` unless that property names one of the two tracking types.
   * `state` is the settings object as a JSON value.
   */
  function StatusAsWritten(s: Step, action: Action, state: Json): Json {
    match Table(s, action)
    case None => Str(StepName(s))
    case Some(To(to)) => Str(StepName(to))
    case Some(ByTrackingType(note, folder)) =>
      var t := Get(state, "trackingType");
      if t == Str(TrackingTypeName(Note)) then Str(StepName(note))
      else if t == Str(TrackingTypeName(Folder)) then Str(StepName(folder))
      else Undefined
  }

  /**
   * Version 2 settings carry no `trackingType`, so as written both branch
   * cells store `undefined` as the walkthrough status.
   */
  lemma AsWrittenLosesStatusOnV2(s: SettingsV2)
    ensures StatusAsWritten(SetCompareFileOrFolder, Next, V2ToJson(s)) == Undefined
    ensures StatusAsWritten(SetInboxPath, Previous, V2ToJson(s)) == Undefined
  {
    assert "trackingType" !in V2ToJson(s).fields;
  }

  /**
   * `Transitioned` with the tracking type passed in is what the code computes
   * whenever the settings object does carry that tracking type, and off the
   * two branch cells it agrees with the code whatever the object holds.
   */
  lemma TransitionedMatchesAsWritten(s: Step, t: TrackingType, a: Action, state: Json)
    ensures Get(state, "trackingType") == Str(TrackingTypeName(t)) ==>
              StatusAsWritten(s, a, state) == Str(StepName(Transitioned(s, t, a)))
    ensures (s, a) != (SetCompareFileOrFolder, Next) && (s, a) != (SetInboxPath, Previous) ==>
              StatusAsWritten(s, a, state) == Str(StepName(Transitioned(s, t, a)))
  {
    assert TrackingTypeName(Note) != TrackingTypeName(Folder) by {
      assert TrackingTypeName(Note)[0] != TrackingTypeName(Folder)[0];
    }
  }
}
