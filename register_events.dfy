/**
 * The vault event handlers (`registerEvents`): a changed note, a created,
 * renamed or deleted file each update the inboxes that track it, and the
 * settings are published again when at least one inbox matched.
 *
 * Each handler selects inboxes by a match test and applies one update to
 * every selected inbox; `Matches` and `Apply` give both per event, and
 * `UpdateMatching` is the loop they share.
 */
module RegisterEvents {
  import opened Inboxes
  import opened SettingsV2
  import opened Text
  import opened Collation
  import opened Store

  /** A vault event, with the parts of the file the handlers read. */
  datatype Event =
    /** `metadataCache` "changed": the note at `filePath` now holds `data`. */
    | Changed(filePath: string, data: string)
    /** `vault` "create": a file `name` was created at `filePath`. */
    | Created(filePath: string, name: string)
    /** `vault` "rename", with the selection the handler is written with. */
    | RenamedAsWritten(oldPath: string, name: string)
    /** `vault` "rename", selecting the inboxes that list the old name. */
    | Renamed(oldPath: string, name: string)
    /** `vault` "delete": the file `name` at `filePath` is gone. */
    | Deleted(filePath: string, name: string)

  /** `xs.filter((x) => x !== y)`. */
  function Without(xs: seq<string>, y: string): (r: seq<string>)
    ensures y !in r
    ensures multiset(r) == multiset(xs)[y := 0]
    ensures forall x :: x in r <==> x in xs && x != y
  {
    if xs == [] then []
    else
      assert xs == [xs[0]] + xs[1..];
      var rest := Without(xs[1..], y);
      if xs[0] == y then rest else [xs[0]] + rest
  }

  /** Whether the handler for `e` selects `inbox`. */
  predicate Matches(e: Event, inbox: Inbox) {
    match e
    case Changed(filePath, _) => inbox.trackingType == Note && inbox.path == filePath
    case Created(filePath, _) => inbox.trackingType == Folder && StartsWith(filePath, inbox.path)
    case RenamedAsWritten(_, name) => inbox.trackingType == Folder && name in inbox.inboxFolderFiles
    case Renamed(oldPath, _) => inbox.trackingType == Folder && AfterLastSlash(oldPath) in inbox.inboxFolderFiles
    case Deleted(filePath, _) => inbox.trackingType == Folder && StartsWith(filePath, inbox.path)
  }

  /** What the handler for `e` does to a selected inbox. */
  function Apply(e: Event, inbox: Inbox): Inbox {
    match e
    case Changed(_, data) => inbox.(inboxNoteContents := Trim(data))
    case Created(_, name) => inbox.(inboxFolderFiles := Sort(inbox.inboxFolderFiles + [name]))
    case RenamedAsWritten(oldPath, name) =>
      inbox.(inboxFolderFiles := Sort(Without(inbox.inboxFolderFiles, AfterLastSlash(oldPath)) + [name]))
    case Renamed(oldPath, name) =>
      inbox.(inboxFolderFiles := Sort(Without(inbox.inboxFolderFiles, AfterLastSlash(oldPath)) + [name]))
    case Deleted(_, name) => inbox.(inboxFolderFiles := Sort(Without(inbox.inboxFolderFiles, name)))
  }

  /** One inbox after the handler for `e` has run. */
  function After(e: Event, inbox: Inbox): Inbox {
    if Matches(e, inbox) then Apply(e, inbox) else inbox
  }

  /** The handler's selection test for `e`, as a value. */
  function Selects(e: Event): Inbox -> bool {
    inbox => Matches(e, inbox)
  }

  /** The handler's update for `e`, as a value. */
  function Changes(e: Event): Inbox -> Inbox {
    inbox => Apply(e, inbox)
  }

  /** The inbox list after `apply` has been run on every inbox `matches` selects. */
  function Updated(inboxes: seq<Inbox>, matches: Inbox -> bool, apply: Inbox -> Inbox): seq<Inbox> {
    seq(|inboxes|, k requires 0 <= k < |inboxes| => if matches(inboxes[k]) then apply(inboxes[k]) else inboxes[k])
  }

  predicate AnyMatch(inboxes: seq<Inbox>, matches: Inbox -> bool) {
    exists k :: 0 <= k < |inboxes| && matches(inboxes[k])
  }

  /** The whole inbox list after the handler for `e` has run. */
  function Handled(inboxes: seq<Inbox>, e: Event): seq<Inbox> {
    Updated(inboxes, Selects(e), Changes(e))
  }

  /**
   * Runs `apply` on every inbox `matches` selects, in place, and publishes
   * the settings when at least one was selected.
   */
  method UpdateMatching(store: Store, matches: Inbox -> bool, apply: Inbox -> Inbox)
    modifies store, store.settings
    ensures store.settings.inboxes == Updated(old(store.settings.inboxes), matches, apply)
    ensures store.settings.walkthroughStatus == old(store.settings.walkthroughStatus)
    ensures store.publishes == old(store.publishes) + (if AnyMatch(old(store.settings.inboxes), matches) then 1 else 0)
    ensures store.saveRequests == old(store.saveRequests)
  {
    var inboxes := store.settings.inboxes;
    ghost var before := inboxes;
    var matched := false;
    var k := 0;
    while k < |inboxes|
      invariant 0 <= k <= |inboxes| == |before|
      invariant forall j :: 0 <= j < k ==> inboxes[j] == if matches(before[j]) then apply(before[j]) else before[j]
      invariant forall j :: k <= j < |inboxes| ==> inboxes[j] == before[j]
      invariant matched <==> exists j :: 0 <= j < k && matches(before[j])
    {
      if matches(inboxes[k]) {
        inboxes := inboxes[k := apply(inboxes[k])];
        matched := true;
      }
      k := k + 1;
    }
    assert inboxes == Updated(before, matches, apply);
    store.settings.inboxes := inboxes;
    if matched {
      store.Set();
    }
  }

  /**
   * One handler: nothing happens until the plugin has performed its startup
   * check (`hasPerformedCheck`).
   */
  method Handle(store: Store, hasPerformedCheck: bool, e: Event)
    modifies store, store.settings
    ensures store.settings.inboxes == if hasPerformedCheck then Handled(old(store.settings.inboxes), e) else old(store.settings.inboxes)
    ensures store.settings.walkthroughStatus == old(store.settings.walkthroughStatus)
    ensures store.publishes == old(store.publishes) + (if hasPerformedCheck && AnyMatch(old(store.settings.inboxes), Selects(e)) then 1 else 0)
    ensures store.saveRequests == old(store.saveRequests)
  {
    if hasPerformedCheck {
      UpdateMatching(store, Selects(e), Changes(e));
    }
  }

  /** Each inbox of the handled list is that inbox after the handler. */
  lemma HandledIsAfter(inboxes: seq<Inbox>, e: Event)
    ensures |Handled(inboxes, e)| == |inboxes|
    ensures forall k :: 0 <= k < |inboxes| ==> Handled(inboxes, e)[k] == After(e, inboxes[k])
    ensures forall k :: 0 <= k < |inboxes| && !Matches(e, inboxes[k]) ==> Handled(inboxes, e)[k] == inboxes[k]
  {
  }

  /** When no inbox is selected the list is unchanged (and nothing is published). */
  lemma NoMatchNoChange(inboxes: seq<Inbox>, e: Event)
    requires !AnyMatch(inboxes, Selects(e))
    ensures Handled(inboxes, e) == inboxes
  {
    assert forall k :: 0 <= k < |inboxes| ==> Handled(inboxes, e)[k] == inboxes[k];
  }

  /** An update never changes which inboxes there are, their tracking type or their path. */
  lemma KeepsIdentity(inbox: Inbox, e: Event)
    ensures After(e, inbox).trackingType == inbox.trackingType
    ensures After(e, inbox).path == inbox.path
    ensures After(e, inbox).compareType == inbox.compareType
    ensures After(e, inbox).inboxNoteBaseContents == inbox.inboxNoteBaseContents
    ensures After(e, inbox).noticeDurationSeconds == inbox.noticeDurationSeconds
    ensures e.Changed? ==> After(e, inbox).inboxFolderFiles == inbox.inboxFolderFiles
    ensures !e.Changed? ==> After(e, inbox).inboxNoteContents == inbox.inboxNoteContents
  {
  }

  /** `changed`: a selected note inbox holds the trimmed contents of the note. */
  lemma ChangedContents(inbox: Inbox, filePath: string, data: string)
    ensures var r := After(Changed(filePath, data), inbox);
      (inbox.trackingType == Note && inbox.path == filePath ==>
        r.inboxNoteContents == Trim(data) && Trim(r.inboxNoteContents) == r.inboxNoteContents)
    ensures inbox.trackingType == Folder || inbox.path != filePath ==> After(Changed(filePath, data), inbox) == inbox
  {
    TrimIdempotent(data);
  }

  /** Running `changed` twice with the same data is the same as running it once. */
  lemma ChangedIdempotent(inboxes: seq<Inbox>, filePath: string, data: string)
    ensures Handled(Handled(inboxes, Changed(filePath, data)), Changed(filePath, data)) == Handled(inboxes, Changed(filePath, data))
  {
    var e := Changed(filePath, data);
    var once := Handled(inboxes, e);
    forall k | 0 <= k < |inboxes| ensures Handled(once, e)[k] == once[k] {
      assert once[k] == After(e, inboxes[k]);
    }
  }

  /**
   * `create`: a selected folder inbox gains the new name once more (duplicates
   * kept) and its list is sorted.
   */
  lemma CreatedFiles(inbox: Inbox, filePath: string, name: string)
    requires inbox.trackingType == Folder && StartsWith(filePath, inbox.path)
    ensures var files := After(Created(filePath, name), inbox).inboxFolderFiles;
      Sorted(files) && multiset(files) == multiset(inbox.inboxFolderFiles) + multiset{name} && name in files
  {
    var files := After(Created(filePath, name), inbox).inboxFolderFiles;
    assert name in multiset(files);
  }

  /** `delete`: a selected folder inbox loses every entry with the name, keeps all others, and is sorted. */
  lemma DeletedFiles(inbox: Inbox, filePath: string, name: string)
    requires inbox.trackingType == Folder && StartsWith(filePath, inbox.path)
    ensures var files := After(Deleted(filePath, name), inbox).inboxFolderFiles;
      Sorted(files) && multiset(files) == multiset(inbox.inboxFolderFiles)[name := 0] && name !in files
  {
    var files := After(Deleted(filePath, name), inbox).inboxFolderFiles;
    assert name !in multiset(files);
  }

  /** Deleting a file twice is the same as deleting it once. */
  lemma DeleteIdempotent(inbox: Inbox, filePath: string, name: string)
    ensures After(Deleted(filePath, name), After(Deleted(filePath, name), inbox)) == After(Deleted(filePath, name), inbox)
  {
    var e := Deleted(filePath, name);
    if Matches(e, inbox) {
      var once := Sort(Without(inbox.inboxFolderFiles, name));
      SortIsCanonical(Without(once, name), Without(inbox.inboxFolderFiles, name));
    }
  }

  /** Deleting a file right after creating it gives the same list as deleting it alone. */
  lemma CreateThenDelete(inbox: Inbox, filePath: string, name: string)
    ensures After(Deleted(filePath, name), After(Created(filePath, name), inbox)) == After(Deleted(filePath, name), inbox)
  {
    if Matches(Created(filePath, name), inbox) {
      var files := inbox.inboxFolderFiles;
      var created := Sort(files + [name]);
      assert multiset(Without(created, name)) == multiset(files)[name := 0];
      SortIsCanonical(Without(created, name), Without(files, name));
    }
  }

  /**
   * `rename`, with the old name selecting the inboxes: the old name is gone,
   * the new name is listed, every other entry is kept, and the list is sorted.
   */
  lemma RenamedFiles(inbox: Inbox, oldPath: string, name: string)
    requires inbox.trackingType == Folder && AfterLastSlash(oldPath) in inbox.inboxFolderFiles
    ensures var files := After(Renamed(oldPath, name), inbox).inboxFolderFiles;
      Sorted(files)
      && multiset(files) == multiset(inbox.inboxFolderFiles)[AfterLastSlash(oldPath) := 0] + multiset{name}
      && name in files
      && (AfterLastSlash(oldPath) != name ==> AfterLastSlash(oldPath) !in files)
  {
    var files := After(Renamed(oldPath, name), inbox).inboxFolderFiles;
    assert name in multiset(files);
    if AfterLastSlash(oldPath) != name {
      assert AfterLastSlash(oldPath) !in multiset(files);
    }
  }

  /** The old name the handler computes for "Inbox/a.md" is "a.md". */
  lemma OldNameExample()
    ensures AfterLastSlash("Inbox/a.md") == "a.md"
  {
    assert "Inbox/a.md"[5] == '/';
    assert "Inbox/a.md"[6..] == "a.md";
  }

  /**
   * As written, `rename` selects by the new name, which a tracked folder does
   * not list yet: renaming `Inbox/a.md` to `b.md` leaves the stale `a.md`.
   */
  lemma RenameAsWrittenKeepsStaleName()
    ensures var inbox := DefaultInbox.(trackingType := Folder, path := "Inbox", inboxFolderFiles := ["a.md"]);
      !Matches(RenamedAsWritten("Inbox/a.md", "b.md"), inbox)
      && After(RenamedAsWritten("Inbox/a.md", "b.md"), inbox).inboxFolderFiles == ["a.md"]
  {
    assert "b.md" != "a.md" by { assert "b.md"[0] != "a.md"[0]; }
  }

  /**
   * As written, on an inbox it does select, `rename` removes the old name and
   * appends the new one, which that inbox already lists: the new name is then
   * listed at least twice.
   */
  lemma RenameAsWrittenSelected(inbox: Inbox, oldPath: string, name: string)
    requires Matches(RenamedAsWritten(oldPath, name), inbox)
    ensures var files := After(RenamedAsWritten(oldPath, name), inbox).inboxFolderFiles;
      Sorted(files)
      && multiset(files) == multiset(inbox.inboxFolderFiles)[AfterLastSlash(oldPath) := 0] + multiset{name}
      && (AfterLastSlash(oldPath) != name ==> multiset(files)[name] >= 2)
  {
    var kept := Without(inbox.inboxFolderFiles, AfterLastSlash(oldPath));
    var files := Sort(kept + [name]);
    assert After(RenamedAsWritten(oldPath, name), inbox).inboxFolderFiles == files;
    assert multiset(files) == multiset(kept) + multiset{name};
    if AfterLastSlash(oldPath) != name {
      assert multiset(kept)[name] == multiset(inbox.inboxFolderFiles)[name] >= 1;
    }
  }

  /** As written, renaming `Other/a.md` to `b.md` doubles the entry of an inbox listing `b.md`. */
  lemma RenameAsWrittenDuplicates()
    ensures var inbox := DefaultInbox.(trackingType := Folder, path := "Inbox", inboxFolderFiles := ["b.md"]);
      Matches(RenamedAsWritten("Other/a.md", "b.md"), inbox)
      && After(RenamedAsWritten("Other/a.md", "b.md"), inbox).inboxFolderFiles == ["b.md", "b.md"]
  {
    assert "Other/a.md"[5] == '/';
    assert "Other/a.md"[6..] == "a.md";
    assert "b.md" != "a.md" by { assert "b.md"[0] != "a.md"[0]; }
    assert Without(["b.md"], "a.md") == ["b.md"];
    assert ["b.md"] + ["b.md"] == ["b.md", "b.md"];
    assert Leq("b.md", "b.md");
    SortIsCanonical(["b.md", "b.md"], ["b.md", "b.md"]);
  }

  /** With the old name selecting, the same rename replaces `a.md` by `b.md`. */
  lemma RenameReplacesName()
    ensures var inbox := DefaultInbox.(trackingType := Folder, path := "Inbox", inboxFolderFiles := ["a.md"]);
      Matches(Renamed("Inbox/a.md", "b.md"), inbox)
      && After(Renamed("Inbox/a.md", "b.md"), inbox).inboxFolderFiles == ["b.md"]
  {
    OldNameExample();
    assert Without(["a.md"], "a.md") == [];
    assert [] + ["b.md"] == ["b.md"];
    SortIsCanonical(["b.md"], ["b.md"]);
  }
}
