/**
 * One tracked inbox: a note or a folder, with the baseline its contents are
 * compared against (the `Inbox` record and `DEFAULT_INBOX`).
 */
module Inboxes {
  import opened Wrappers
  import opened Json

  /** Whether the inbox is a single note or a folder of files. */
  datatype TrackingType = Note | Folder

  /** Which baseline decides that the inbox has something to process. */
  datatype CompareType = CompareToBase | CompareToLastTracked

  datatype Inbox = Inbox(
    trackingType: TrackingType,
    /** Vault path of the note (with ".md") or of the folder (without). */
    path: string,
    compareType: CompareType,
    /** The user's "nothing to process" contents, used with CompareToBase. */
    inboxNoteBaseContents: string,
    /** Last tracked (trimmed) note contents, used with CompareToLastTracked. */
    inboxNoteContents: string,
    /** Last tracked list of the files in the inbox folder. */
    inboxFolderFiles: seq<string>,
    /** Notice duration in seconds: None is the host default, Some(0) never dismisses. */
    noticeDurationSeconds: Option<int>
  )

  const DefaultInbox := Inbox(Note, "", CompareToLastTracked, "", "", [], None)

  function TrackingTypeName(t: TrackingType): string {
    match t
    case Note => "note"
    case Folder => "folder"
  }

  function CompareTypeName(c: CompareType): string {
    match c
    case CompareToBase => "compareToBase"
    case CompareToLastTracked => "compareToLastTracked"
  }

  function TrackingTypeFromJson(v: Json): (r: Option<TrackingType>)
    ensures r.Some? ==> v == Str(TrackingTypeName(r.value))
  {
    if v == Str("note") then Some(Note)
    else if v == Str("folder") then Some(Folder)
    else None
  }

  function CompareTypeFromJson(v: Json): (r: Option<CompareType>)
    ensures r.Some? ==> v == Str(CompareTypeName(r.value))
  {
    if v == Str("compareToBase") then Some(CompareToBase)
    else if v == Str("compareToLastTracked") then Some(CompareToLastTracked)
    else None
  }

  function StringsToJson(xs: seq<string>): (r: seq<Json>)
    ensures |r| == |xs|
  {
    if xs == [] then [] else [Str(xs[0])] + StringsToJson(xs[1..])
  }

  function StringsFromJson(vs: seq<Json>): Option<seq<string>> {
    if vs == [] then Some([])
    else if !vs[0].Str? then None
    else
      match StringsFromJson(vs[1..])
      case None => None
      case Some(rest) => Some([vs[0].s] + rest)
  }

  function DurationToJson(d: Option<int>): Json {
    match d
    case None => Null
    case Some(n) => Num(n)
  }

  /** The persisted form of an inbox: an object with exactly its seven keys. */
  function InboxToJson(i: Inbox): Json {
    Obj(map[
      "trackingType" := Str(TrackingTypeName(i.trackingType)),
      "path" := Str(i.path),
      "compareType" := Str(CompareTypeName(i.compareType)),
      "inboxNoteBaseContents" := Str(i.inboxNoteBaseContents),
      "inboxNoteContents" := Str(i.inboxNoteContents),
      "inboxFolderFiles" := Arr(StringsToJson(i.inboxFolderFiles)),
      "noticeDurationSeconds" := DurationToJson(i.noticeDurationSeconds)
    ])
  }

  /**
   * Reads an object as an `Inbox` when each of the seven keys holds a value of
   * the declared type; further keys are ignored, as a structural type does.
   */
  function InboxFromJson(v: Json): Option<Inbox> {
    if !v.Obj? then None
    else
      var tt := TrackingTypeFromJson(Get(v, "trackingType"));
      var ct := CompareTypeFromJson(Get(v, "compareType"));
      var path := Get(v, "path");
      var base := Get(v, "inboxNoteBaseContents");
      var contents := Get(v, "inboxNoteContents");
      var files := Get(v, "inboxFolderFiles");
      var duration := Get(v, "noticeDurationSeconds");
      if tt.None? || ct.None? || !path.Str? || !base.Str? || !contents.Str? || !files.Arr?
         || !(duration.Null? || duration.Num?)
      then None
      else
        match StringsFromJson(files.items)
        case None => None
        case Some(names) =>
          Some(Inbox(tt.value, path.s, ct.value, base.s, contents.s, names,
                     if duration.Null? then None else Some(duration.n)))
  }

  lemma {:induction false} StringsRoundTrip(xs: seq<string>)
    ensures StringsFromJson(StringsToJson(xs)) == Some(xs)
  {
    if xs != [] {
      StringsRoundTrip(xs[1..]);
      assert [xs[0]] + xs[1..] == xs;
    }
  }

  /** Reading back the persisted form of an inbox gives the same inbox. */
  lemma RoundTrip(i: Inbox)
    ensures InboxFromJson(InboxToJson(i)) == Some(i)
  {
    InboxJsonKeys(i);
    StringsRoundTrip(i.inboxFolderFiles);
  }

  lemma InboxJsonKeys(i: Inbox)
    ensures var v := InboxToJson(i);
            && Get(v, "trackingType") == Str(TrackingTypeName(i.trackingType))
            && Get(v, "compareType") == Str(CompareTypeName(i.compareType))
            && Get(v, "path") == Str(i.path)
            && Get(v, "inboxNoteBaseContents") == Str(i.inboxNoteBaseContents)
            && Get(v, "inboxNoteContents") == Str(i.inboxNoteContents)
            && Get(v, "inboxFolderFiles") == Arr(StringsToJson(i.inboxFolderFiles))
            && Get(v, "noticeDurationSeconds") == DurationToJson(i.noticeDurationSeconds)
  {
  }

  /** `DEFAULT_INBOX` as the frozen object literal it is written as. */
  lemma DefaultInboxLiteral()
    ensures InboxToJson(DefaultInbox) == Obj(map[
      "trackingType" := Str("note"),
      "path" := Str(""),
      "compareType" := Str("compareToLastTracked"),
      "inboxNoteBaseContents" := Str(""),
      "inboxNoteContents" := Str(""),
      "inboxFolderFiles" := Arr([]),
      "noticeDurationSeconds" := Null
    ])
    ensures InboxFromJson(InboxToJson(DefaultInbox)) == Some(DefaultInbox)
  {
    RoundTrip(DefaultInbox);
  }
}
