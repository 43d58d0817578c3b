/**
 * The plugin's store: the live settings object, the walkthrough stepper
 * (`next`, `back`, `complete`, `reset`) and the derived step number.
 *
 * The stepper walks the fixed list of walkthrough statuses, clamped at both
 * ends; the status itself is whatever string the settings hold.
 */
module Store {
  import opened Wrappers
  import opened SettingsV2
  import opened WalkthroughStatus

  /** The status `next` moves to (store.ts, `next`). */
  function StepForward(status: string): (r: string)
    ensures status in Options && status != "completed" ==> r == Options[IndexOf(Options, status) + 1]
    ensures status == "completed" ==> r == status
    ensures status !in Options ==> r == "unstarted"
    ensures r in Options
  {
    var index := IndexOf(Options, status);
    if index + 1 < |Options| then Options[index + 1] else status
  }

  /** The status `back` moves to (store.ts, `back`). */
  function StepBack(status: string): (r: string)
    ensures status in Options && status != "unstarted" ==> r == Options[IndexOf(Options, status) - 1]
    ensures status == "unstarted" || status !in Options ==> r == status
    ensures r in Options <==> status in Options
  {
    var index := IndexOf(Options, status);
    if index > 0 then Options[index - 1] else status
  }

  /** `back` undoes `next` on every listed status but the last. */
  lemma BackUndoesForward(status: string)
    requires status in Options && status != "completed"
    ensures StepBack(StepForward(status)) == status
  {
    var i := IndexOf(Options, status);
    ForwardAt(i);
    BackAt(i + 1);
  }

  /** `next` undoes `back` on every listed status but the first. */
  lemma ForwardUndoesBack(status: string)
    requires status in Options && status != "unstarted"
    ensures StepForward(StepBack(status)) == status
  {
    var i := IndexOf(Options, status);
    BackAt(i);
    ForwardAt(i - 1);
  }

  /** `next` moves from position `i` of the list to `i + 1`, and stays on the last. */
  lemma ForwardAt(i: nat)
    requires i < |Options|
    ensures StepForward(Options[i]) == Options[if i + 1 < |Options| then i + 1 else i]
  {
    IndexOfMember(i);
  }

  /** `back` moves from position `i` of the list to `i - 1`, and stays on the first. */
  lemma BackAt(i: nat)
    requires i < |Options|
    ensures StepBack(Options[i]) == Options[if i > 0 then i - 1 else i]
  {
    IndexOfMember(i);
  }

  /** Four steps forward lead from any listed status to "completed", which `next` keeps. */
  lemma ForwardFromListed(status: string)
    requires status in Options
    ensures StepForward(StepForward(StepForward(StepForward(status)))) == "completed"
  {
    var i := IndexOf(Options, status);
    var i1 := if i < 4 then i + 1 else 4;
    var i2 := if i1 < 4 then i1 + 1 else 4;
    var i3 := if i2 < 4 then i2 + 1 else 4;
    ForwardAt(i);
    ForwardAt(i1);
    ForwardAt(i2);
    ForwardAt(i3);
  }

  /** From any status at all, five steps forward reach "completed". */
  lemma ForwardReachesCompleted(status: string)
    ensures StepForward(StepForward(StepForward(StepForward(StepForward(status))))) == "completed"
  {
    ForwardFromListed(StepForward(status));
  }

  /**
   * `currentWalkthroughStep`: the 1-based position of the status in the list,
   * 0 when there are no settings, no status, or an unlisted one.
   */
  function CurrentWalkthroughStep(status: Option<string>): (r: nat)
    ensures r == 0 <==> status.None? || status.value !in Options
    ensures r != 0 ==> r <= |Options| && Options[r - 1] == status.value
  {
    if status.Some? && status.value != "" then IndexOf(Options, status.value) + 1 else 0
  }

  /**
   * The store.  `publishes` counts the values delivered to subscribers (every
   * `set` and `update`), `saveRequests` the calls of `saveSettings`.
   */
  class Store {
    const settings: Settings
    var publishes: nat
    var saveRequests: nat

    constructor (settings: Settings)
      ensures this.settings == settings && publishes == 0 && saveRequests == 0
    {
      this.settings := settings;
      publishes := 0;
      saveRequests := 0;
    }

    /** `store.set(settings)` with the held settings object. */
    method Set()
      modifies this
      ensures publishes == old(publishes) + 1 && saveRequests == old(saveRequests)
    {
      publishes := publishes + 1;
    }

    method Next()
      modifies this, settings
      ensures settings.walkthroughStatus == StepForward(old(settings.walkthroughStatus))
      ensures settings.inboxes == old(settings.inboxes)
      ensures publishes == old(publishes) + 1 && saveRequests == old(saveRequests) + 1
    {
      var currentStepIndex := IndexOf(Options, settings.walkthroughStatus);
      if currentStepIndex + 1 < |Options| {
        settings.walkthroughStatus := Options[currentStepIndex + 1];
      }
      saveRequests := saveRequests + 1;
      publishes := publishes + 1;
    }

    method Back()
      modifies this, settings
      ensures settings.walkthroughStatus == StepBack(old(settings.walkthroughStatus))
      ensures settings.inboxes == old(settings.inboxes)
      ensures publishes == old(publishes) + 1 && saveRequests == old(saveRequests) + 1
    {
      var currentStepIndex := IndexOf(Options, settings.walkthroughStatus);
      if currentStepIndex > 0 {
        settings.walkthroughStatus := Options[currentStepIndex - 1];
      }
      saveRequests := saveRequests + 1;
      publishes := publishes + 1;
    }

    method Complete()
      modifies this, settings
      ensures settings.walkthroughStatus == "completed"
      ensures settings.inboxes == old(settings.inboxes)
      ensures publishes == old(publishes) + 1 && saveRequests == old(saveRequests) + 1
    {
      settings.walkthroughStatus := "completed";
      saveRequests := saveRequests + 1;
      publishes := publishes + 1;
    }

    method Reset()
      modifies this, settings
      ensures settings.walkthroughStatus == "unstarted"
      ensures settings.inboxes == old(settings.inboxes)
      ensures publishes == old(publishes) + 1 && saveRequests == old(saveRequests) + 1
    {
      settings.walkthroughStatus := "unstarted";
      saveRequests := saveRequests + 1;
      publishes := publishes + 1;
    }
  }
}
