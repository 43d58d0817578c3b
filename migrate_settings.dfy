/**
 * `migrateSettings`: turns whatever was loaded from disk into the V2 layout,
 * or into `undefined` when it has neither layout's shape.
 *
 * The V1 test comes first: an object that has `inboxNotePath` is upgraded even
 * when it also has `inboxes`.  Before the upgrade, a note-tracked V1 object
 * whose path lacks ".md" gets the suffix appended IN THE CALLER'S OBJECT.
 */
module MigrateSettings {
  import opened Wrappers
  import opened Json
  import opened Text
  import opened Inboxes
  import opened SettingsV1
  import opened SettingsV2

  /** How a call ends: with a returned value (possibly `undefined`) or a thrown TypeError. */
  datatype Outcome = Returned(value: Json) | ThrewTypeError

  /**
   * The `.md` fix-up on the fields of a V1 object: the fields afterwards, or
   * None when evaluating the guard throws.  The guard calls `endsWith` on
   * `inboxNotePath` once it is known to be truthy; on a truthy value that is
   * not a string, `endsWith` is not a function and the call throws.
   */
  function FixNotePath(fields: map<string, Json>): Option<map<string, Json>> {
    var trackingType := Get(Obj(fields), "trackingType");
    var notePath := Get(Obj(fields), "inboxNotePath");
    if trackingType != Str("note") || !Truthy(notePath) then Some(fields)
    else if !notePath.Str? then None
    else if EndsWith(notePath.s, ".md") then Some(fields)
    else Some(fields["inboxNotePath" := Str(notePath.s + ".md")])
  }

  /**
   * `migrateV1ToV2`: the inbox is a copy of every input key, with `path` set to
   * `inboxNotePath` and the keys `inboxNotePath` and `walkthroughStatus`
   * deleted; it is wrapped in a one-element `inboxes` list next to the input's
   * `walkthroughStatus` (which is `undefined` when the input has none).
   */
  function MigrateV1ToV2(fields: map<string, Json>): Json {
    var inbox := fields["path" := Get(Obj(fields), "inboxNotePath")] - {"inboxNotePath", "walkthroughStatus"};
    Obj(map["inboxes" := Arr([Obj(inbox)]), "walkthroughStatus" := Get(Obj(fields), "walkthroughStatus")])
  }

  /** The final gate: only a V2-shaped value is returned, anything else becomes `undefined`. */
  function Gate(v: Json): Outcome {
    if IsInboxPluginSettingsV2(v) then Returned(v) else Returned(Undefined)
  }

  /** What `migrateSettings(v)` returns. */
  function Migrated(v: Json): Outcome {
    if IsInboxPluginSettingsV1(v) then
      match FixNotePath(v.fields)
      case None => ThrewTypeError
      case Some(fixed) => Gate(MigrateV1ToV2(fixed))
    else
      Gate(v)
  }

  /** What the caller's own value holds after `migrateSettings(v)`. */
  function InputAfter(v: Json): Json {
    if IsInboxPluginSettingsV1(v) then
      match FixNotePath(v.fields)
      case None => v
      case Some(fixed) => Obj(fixed)
    else
      v
  }

  /** The caller's reference to the value it hands to `migrateSettings`. */
  class RawSettings {
    var value: Json

    constructor (v: Json)
      ensures value == v
    {
      value := v;
    }
  }

  /** `migrateSettings(settings)`, with the suffix appended in place. */
  method MigrateSettingsInPlace(settings: RawSettings) returns (r: Outcome)
    modifies settings
    ensures r == Migrated(old(settings.value))
    ensures settings.value == InputAfter(old(settings.value))
  {
    var migrated := settings.value;
    if IsInboxPluginSettingsV1(settings.value) {
      var fixed := FixNotePath(settings.value.fields);
      if fixed.None? {
        return ThrewTypeError;
      }
      settings.value := Obj(fixed.value);
      migrated := MigrateV1ToV2(settings.value.fields);
    }
    if IsInboxPluginSettingsV2(migrated) {
      return Returned(migrated);
    }
    return Returned(Undefined);
  }

  // ---------------------------------------------------------------------------
  // The path fix-up

  /** The note path a V1 record ends up with. */
  function NormalizedNotePath(trackingType: TrackingType, path: string): (r: string)
    ensures (trackingType != Note || path == "" || EndsWith(path, ".md")) <==> r == path
    ensures r != path ==> r == path + ".md"
  {
    if trackingType == Note && path != "" && !EndsWith(path, ".md") then path + ".md" else path
  }

  /**
   * The cases of the fix-up on a V1 object: a non-empty note path without
   * ".md" gains it; a path with ".md", an empty path and any path of a
   * non-note inbox stay as they are; a truthy non-string path of a note
   * inbox makes the call throw and changes nothing.
   */
  lemma NotePathFixup(v: Json)
    requires IsInboxPluginSettingsV1(v)
    ensures var t, p := Get(v, "trackingType"), Get(v, "inboxNotePath");
            && (Migrated(v) == ThrewTypeError <==> t == Str("note") && Truthy(p) && !p.Str?)
            && (t == Str("note") && p.Str? && p.s != "" && !EndsWith(p.s, ".md") ==>
                  InputAfter(v) == Obj(v.fields["inboxNotePath" := Str(p.s + ".md")]))
            && (t == Str("note") && p.Str? && EndsWith(p.s, ".md") ==> InputAfter(v) == v)
            && (p == Str("") ==> InputAfter(v) == v)
            && (t != Str("note") ==> InputAfter(v) == v)
  {
  }

  /**
   * The only change made to the caller's value is the suffix appended to a
   * string `inboxNotePath`.
   */
  lemma OnlyNotePathChanges(v: Json)
    ensures InputAfter(v) == v ||
            (v.Obj? && "inboxNotePath" in v.fields && v.fields["inboxNotePath"].Str? &&
             InputAfter(v) == Obj(v.fields["inboxNotePath" := Str(v.fields["inboxNotePath"].s + ".md")]))
  {
  }

  // ---------------------------------------------------------------------------
  // The upgrade

  /**
   * A V1 object that does not make the fix-up throw becomes an object with
   * exactly the keys `inboxes` and `walkthroughStatus`: one inbox whose `path`
   * is the fixed note path, which has neither `inboxNotePath` nor
   * `walkthroughStatus`, and which carries every other input key verbatim
   * (an old `inboxes` value among them), next to the input's status.
   */
  lemma V1Upgrade(v: Json)
    requires IsInboxPluginSettingsV1(v)
    requires Migrated(v) != ThrewTypeError
    ensures Migrated(v).Returned? && Migrated(v).value.Obj?
    ensures var m := Migrated(v).value.fields;
            && m.Keys == {"inboxes", "walkthroughStatus"}
            && m["walkthroughStatus"] == Get(v, "walkthroughStatus")
            && m["inboxes"].Arr? && |m["inboxes"].items| == 1 && m["inboxes"].items[0].Obj?
            && var inbox := m["inboxes"].items[0].fields;
               && inbox.Keys == v.fields.Keys - {"inboxNotePath", "walkthroughStatus"} + {"path"}
               && inbox["path"] == Get(InputAfter(v), "inboxNotePath")
               && (forall k :: k in v.fields && k != "path" && k != "inboxNotePath" && k != "walkthroughStatus"
                     ==> inbox[k] == v.fields[k])
  {
    var fixed := FixNotePath(v.fields).value;
    assert fixed.Keys == v.fields.Keys;
  }

  /** An object with `inboxes` and no `inboxNotePath` is returned as it is, and left as it is. */
  lemma V2PassesThrough(v: Json)
    requires IsInboxPluginSettingsV2(v) && !IsInboxPluginSettingsV1(v)
    ensures Migrated(v) == Returned(v)
    ensures InputAfter(v) == v
  {
  }

  /**
   * Null, a primitive, an array, or an object with neither `inboxNotePath` nor
   * `inboxes` yields `undefined`; exactly the values with one of these keys
   * yield anything else.
   */
  lemma UnrecognisedIsUndefined(v: Json)
    ensures Migrated(v) == Returned(Undefined) <==>
            !(v.Obj? && ("inboxNotePath" in v.fields || "inboxes" in v.fields))
  {
    if IsInboxPluginSettingsV1(v) && Migrated(v) != ThrewTypeError {
      V1Upgrade(v);
    }
  }

  /**
   * Idempotence: whatever a call returns, other than `undefined`, comes back
   * unchanged from a second call, which leaves it untouched.
   */
  lemma Idempotent(v: Json)
    requires Migrated(v).Returned? && Migrated(v).value != Undefined
    ensures Migrated(Migrated(v).value) == Migrated(v)
    ensures InputAfter(Migrated(v).value) == Migrated(v).value
  {
    if IsInboxPluginSettingsV1(v) {
      V1Upgrade(v);
    }
  }

  // ---------------------------------------------------------------------------
  // Typed records

  /** The V2 record a well-typed V1 record upgrades to. */
  function Upgrade(s: SettingsV1): SettingsV2 {
    SettingsV2(
      [Inbox(s.trackingType, NormalizedNotePath(s.trackingType, s.inboxNotePath), s.compareType,
             s.inboxNoteBaseContents, s.inboxNoteContents, s.inboxFolderFiles, s.noticeDurationSeconds)],
      s.walkthroughStatus)
  }

  /** A well-typed V1 record migrates to the persisted form of its upgrade. */
  lemma TypedV1Upgrade(s: SettingsV1)
    ensures Migrated(V1ToJson(s)) == Returned(V2ToJson(Upgrade(s)))
  {
    var fixed := TypedFixNotePath(s);
    TypedMigrateV1ToV2(s, fixed);
  }

  lemma TypedFixNotePath(s: SettingsV1) returns (fixed: map<string, Json>)
    ensures FixNotePath(V1ToJson(s).fields) == Some(fixed)
    ensures fixed == V1ToJson(s).fields["inboxNotePath" := Str(NormalizedNotePath(s.trackingType, s.inboxNotePath))]
  {
    var f := V1ToJson(s).fields;
    fixed := FixNotePath(f).value;
    if fixed == f {
      assert f["inboxNotePath" := f["inboxNotePath"]] == f;
    }
  }

  lemma TypedMigrateV1ToV2(s: SettingsV1, fixed: map<string, Json>)
    requires fixed == V1ToJson(s).fields["inboxNotePath" := Str(NormalizedNotePath(s.trackingType, s.inboxNotePath))]
    ensures MigrateV1ToV2(fixed) == V2ToJson(Upgrade(s))
  {
    var inbox := fixed["path" := Get(Obj(fixed), "inboxNotePath")] - {"inboxNotePath", "walkthroughStatus"};
    assert inbox == InboxToJson(Upgrade(s).inboxes[0]).fields;
    assert InboxesToJson(Upgrade(s).inboxes) == [Obj(inbox)];
  }

  /** A persisted V2 record migrates to itself. */
  lemma TypedV2PassesThrough(s: SettingsV2)
    ensures Migrated(V2ToJson(s)) == Returned(V2ToJson(s))
  {
  }

  // ---------------------------------------------------------------------------
  // The expected migrations

  /** A V1 note record whose path already ends in ".md" keeps it. */
  lemma MigratesNoteWithSuffix()
    ensures Migrated(V1ToJson(SettingsV1(Note, "Mobile Inbox.md", CompareToLastTracked, "", "Contents", [], Some(1), "completed")))
         == Returned(V2ToJson(SettingsV2([Inbox(Note, "Mobile Inbox.md", CompareToLastTracked, "", "Contents", [], Some(1))], "completed")))
  {
    TypedV1Upgrade(SettingsV1(Note, "Mobile Inbox.md", CompareToLastTracked, "", "Contents", [], Some(1), "completed"));
    assert EndsWith("Mobile Inbox.md", ".md") by {
      assert "Mobile Inbox.md"[12..] == ".md";
    }
  }

  /** A V1 note record whose path lacks ".md" gains it. */
  lemma MigratesNoteWithoutSuffix()
    ensures Migrated(V1ToJson(SettingsV1(Note, "Mobile Inbox", CompareToLastTracked, "", "Contents", [], Some(1), "completed")))
         == Returned(V2ToJson(SettingsV2([Inbox(Note, "Mobile Inbox.md", CompareToLastTracked, "", "Contents", [], Some(1))], "completed")))
  {
    var v1 := SettingsV1(Note, "Mobile Inbox", CompareToLastTracked, "", "Contents", [], Some(1), "completed");
    TypedV1Upgrade(v1);
    assert NormalizedNotePath(Note, "Mobile Inbox") == "Mobile Inbox.md" by {
      assert !EndsWith("Mobile Inbox", ".md") by {
        assert "Mobile Inbox"[11] == 'x';
      }
      assert "Mobile Inbox" + ".md" == "Mobile Inbox.md";
    }
    assert Upgrade(v1) == SettingsV2([Inbox(Note, "Mobile Inbox.md", CompareToLastTracked, "", "Contents", [], Some(1))], "completed");
  }

  /** A V1 folder record keeps its path and its file list. */
  lemma MigratesFolder()
    ensures Migrated(V1ToJson(SettingsV1(Folder, "Inbox Folder", CompareToLastTracked, "", "", ["file1", "file2"], Some(1), "completed")))
         == Returned(V2ToJson(SettingsV2([Inbox(Folder, "Inbox Folder", CompareToLastTracked, "", "", ["file1", "file2"], Some(1))], "completed")))
  {
    TypedV1Upgrade(SettingsV1(Folder, "Inbox Folder", CompareToLastTracked, "", "", ["file1", "file2"], Some(1), "completed"));
  }

  /** V2 settings, the defaults among them, are left as they are. */
  lemma LeavesV2Intact()
    ensures var s := SettingsV2([Inbox(Folder, "Inbox Folder", CompareToLastTracked, "", "", ["file1", "file2"], Some(1))], "completed");
      Migrated(V2ToJson(s)) == Returned(V2ToJson(s)) && InputAfter(V2ToJson(s)) == V2ToJson(s)
    ensures !IsInboxPluginSettingsV1(V2ToJson(DefaultSettings))
    ensures Migrated(V2ToJson(DefaultSettings)) == Returned(V2ToJson(DefaultSettings))
  {
    TypedV2PassesThrough(SettingsV2([Inbox(Folder, "Inbox Folder", CompareToLastTracked, "", "", ["file1", "file2"], Some(1))], "completed"));
    TypedV2PassesThrough(DefaultSettings);
  }
}
