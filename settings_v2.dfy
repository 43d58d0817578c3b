/**
 * The current settings layout: a list of inboxes and the walkthrough status,
 * with `DEFAULT_SETTINGS` and the live settings object that the store holds.
 */
module SettingsV2 {
  import opened Json
  import opened Inboxes

  /**
   * `isInboxPluginSettingsV2`: a truthy value of type "object" with an
   * `inboxes` key, whatever that key holds.
   */
  predicate IsInboxPluginSettingsV2(obj: Json)
    ensures IsInboxPluginSettingsV2(obj) <==> obj.Obj? && "inboxes" in obj.fields
  {
    Truthy(obj) && TypeOf(obj) == "object" && HasProperty(obj, "inboxes")
  }

  /** The V2 record as its interface declares it. */
  datatype SettingsV2 = SettingsV2(inboxes: seq<Inbox>, walkthroughStatus: string)

  const DefaultSettings := SettingsV2([], "unstarted")

  function InboxesToJson(inboxes: seq<Inbox>): (r: seq<Json>)
    ensures |r| == |inboxes|
    ensures forall k :: 0 <= k < |inboxes| ==> r[k] == InboxToJson(inboxes[k])
  {
    if inboxes == [] then [] else [InboxToJson(inboxes[0])] + InboxesToJson(inboxes[1..])
  }

  /** The persisted form: an object with exactly the keys `inboxes` and `walkthroughStatus`. */
  function V2ToJson(s: SettingsV2): Json {
    Obj(map["inboxes" := Arr(InboxesToJson(s.inboxes)), "walkthroughStatus" := Str(s.walkthroughStatus)])
  }

  /** Every persisted V2 record passes the V2 shape test. */
  lemma ToJsonIsV2(s: SettingsV2)
    ensures IsInboxPluginSettingsV2(V2ToJson(s))
  {
  }

  /** `DEFAULT_SETTINGS`: no inboxes and an unstarted walkthrough. */
  lemma DefaultSettingsLiteral()
    ensures V2ToJson(DefaultSettings) == Obj(map["inboxes" := Arr([]), "walkthroughStatus" := Str("unstarted")])
    ensures IsInboxPluginSettingsV2(V2ToJson(DefaultSettings))
  {
  }

  /**
   * The settings object the plugin holds in memory and updates in place.
   * Reassigning `inboxes` stands for updates of the array and of the inbox
   * objects in it.
   */
  class Settings {
    var inboxes: seq<Inbox>
    var walkthroughStatus: string

    constructor (s: SettingsV2)
      ensures Value() == s
    {
      inboxes := s.inboxes;
      walkthroughStatus := s.walkthroughStatus;
    }

    function Value(): SettingsV2
      reads this
    {
      SettingsV2(inboxes, walkthroughStatus)
    }
  }
}
