/**
 * The first multi-field settings layout: a single inbox flattened into the
 * top level, with its path under `inboxNotePath`, next to `walkthroughStatus`.
 * Kept only so that old data can be migrated.
 */
module SettingsV1 {
  import opened Wrappers
  import opened Json
  import opened Inboxes

  /**
   * `isInboxPluginSettingsV1`: a truthy value of type "object" with an
   * `inboxNotePath` key.  Only the key's presence is asked about, not its value,
   * and an `inboxes` key alongside it does not matter.
   */
  predicate IsInboxPluginSettingsV1(obj: Json)
    ensures IsInboxPluginSettingsV1(obj) <==> obj.Obj? && "inboxNotePath" in obj.fields
  {
    Truthy(obj) && TypeOf(obj) == "object" && HasProperty(obj, "inboxNotePath")
  }

  /** The V1 record as its interface declares it. */
  datatype SettingsV1 = SettingsV1(
    trackingType: TrackingType,
    /** Path to the note ("Path/To/Inbox.md") or the folder ("Path/To/Inbox"). */
    inboxNotePath: string,
    compareType: CompareType,
    inboxNoteBaseContents: string,
    inboxNoteContents: string,
    inboxFolderFiles: seq<string>,
    noticeDurationSeconds: Option<int>,
    walkthroughStatus: string
  )

  /** The persisted form of a V1 record: an object with exactly its eight keys. */
  function V1ToJson(s: SettingsV1): Json {
    Obj(map[
      "trackingType" := Str(TrackingTypeName(s.trackingType)),
      "inboxNotePath" := Str(s.inboxNotePath),
      "compareType" := Str(CompareTypeName(s.compareType)),
      "inboxNoteBaseContents" := Str(s.inboxNoteBaseContents),
      "inboxNoteContents" := Str(s.inboxNoteContents),
      "inboxFolderFiles" := Arr(StringsToJson(s.inboxFolderFiles)),
      "noticeDurationSeconds" := DurationToJson(s.noticeDurationSeconds),
      "walkthroughStatus" := Str(s.walkthroughStatus)
    ])
  }
}
