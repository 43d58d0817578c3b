/**
 * The index-addressed inbox setters behind the settings tab: choosing the
 * tracking type, the inbox note or the inbox folder of the inbox at a given
 * position of the list.
 *
 * The vault is passed in: the paths of its markdown files, the contents a
 * note read from the vault has, and the loaded file tree.  The three failures
 * modelled here (an unknown note, an unknown folder, an index outside the
 * list) report an error and leave the settings, and what was published, as
 * they were.
 */
module InboxHelpers {
  import opened Wrappers
  import opened Inboxes
  import opened SettingsV2
  import opened Text
  import opened Collation
  import opened FileTree
  import opened Store

  /** The error notices the setters raise. */
  datatype HelperError =
    | InboxNotFound(index: int)
    | NoteNotFound(notePath: string)
    | FolderNotFound(folderPath: string)

  /**
   * `Array.prototype.at`: a non-negative index counts from the front, a
   * negative one from the end; anything outside the list finds nothing.
   */
  function ResolveIndex(len: nat, index: int): (r: Option<nat>)
    ensures r.Some? <==> -(len as int) <= index < len
    ensures r.Some? ==> r.value < len
    ensures r.Some? && index >= 0 ==> r.value == index
    ensures r.Some? && index < 0 ==> r.value == len + index
  {
    if 0 <= index < len then Some(index)
    else if -(len as int) <= index < 0 then Some(len + index)
    else None
  }

  /** Exactly two indices reach each position: the position itself and its offset from the end. */
  lemma ResolveIndexPreimage(len: nat, index: int, k: nat)
    ensures ResolveIndex(len, index) == Some(k) <==> k < len && (index == k || index == k as int - len)
  {
  }

  /** `getFolders(vault).find((folder) => folder.path === folderPath)`. */
  function FindFolder(loaded: seq<AbstractFile>, folderPath: string): (r: Option<AbstractFile>)
    ensures r.Some? ==> r.value.Folder? && r.value.path == folderPath
    ensures r.Some? ==> exists i :: (0 <= i < |loaded| && loaded[i] == r.value
      && forall j :: 0 <= j < i ==> !(loaded[j].Folder? && loaded[j].path == folderPath))
    ensures r.None? <==> forall f :: f in loaded ==> !(f.Folder? && f.path == folderPath)
  {
    if loaded == [] then None
    else if loaded[0].Folder? && loaded[0].path == folderPath then Some(loaded[0])
    else
      var r := FindFolder(loaded[1..], folderPath);
      assert forall f :: f in loaded ==> f == loaded[0] || f in loaded[1..];
      if r.Some? then
        var i :| 0 <= i < |loaded[1..]| && loaded[1..][i] == r.value
          && forall j :: 0 <= j < i ==> !(loaded[1..][j].Folder? && loaded[1..][j].path == folderPath);
        assert loaded[i + 1] == r.value;
        assert forall j :: 0 < j < i + 1 ==> loaded[j] == loaded[1..][j - 1];
        r
      else r
  }

  /** `setTrackingType`'s update: the new type, and the old path cleared. */
  function WithTrackingType(inbox: Inbox, trackingType: TrackingType): Inbox {
    inbox.(trackingType := trackingType, path := "")
  }

  /** `setInboxNote`'s update: the note's path and its trimmed contents. */
  function WithNote(inbox: Inbox, notePath: string, contents: string): Inbox {
    inbox.(path := notePath, inboxNoteContents := Trim(contents))
  }

  /** `setInboxFolder`'s update: the folder's path and the sorted listing of its files. */
  function WithFolder(inbox: Inbox, folder: AbstractFile): Inbox
    requires folder.Folder?
  {
    inbox.(path := folder.path, inboxFolderFiles := Sort(AllFilesInFolderRecursive(folder)))
  }

  /** Replaces the inbox at position `k` and publishes the settings (`store.set(settings)`). */
  method ReplaceInbox(store: Store, k: nat, inbox: Inbox)
    requires k < |store.settings.inboxes|
    modifies store, store.settings
    ensures store.settings.inboxes == old(store.settings.inboxes)[k := inbox]
    ensures store.settings.walkthroughStatus == old(store.settings.walkthroughStatus)
    ensures store.publishes == old(store.publishes) + 1
    ensures store.saveRequests == old(store.saveRequests)
  {
    store.settings.inboxes := store.settings.inboxes[k := inbox];
    store.Set();
  }

  /** `setTrackingType(trackingType, index)`. */
  method SetTrackingType(store: Store, trackingType: TrackingType, index: int) returns (err: Option<HelperError>)
    modifies store, store.settings
    ensures var slot := ResolveIndex(|old(store.settings.inboxes)|, index);
      if slot.None? then
        err == Some(InboxNotFound(index))
        && store.settings.inboxes == old(store.settings.inboxes) && store.publishes == old(store.publishes)
      else
        err == None
        && store.settings.inboxes == old(store.settings.inboxes)[slot.value := WithTrackingType(old(store.settings.inboxes)[slot.value], trackingType)]
        && store.publishes == old(store.publishes) + 1
    ensures store.settings.walkthroughStatus == old(store.settings.walkthroughStatus)
    ensures store.saveRequests == old(store.saveRequests)
  {
    var slot := ResolveIndex(|store.settings.inboxes|, index);
    if slot.None? {
      return Some(InboxNotFound(index));
    }
    var k := slot.value;
    ReplaceInbox(store, k, WithTrackingType(store.settings.inboxes[k], trackingType));
    return None;
  }

  /**
   * `setInboxNote({ notePath, index })`.  `markdownPaths` are the paths of the
   * vault's markdown files and `read` gives the contents of the note at a path.
   */
  method SetInboxNote(store: Store, markdownPaths: seq<string>, read: string -> string, notePath: string, index: int)
    returns (err: Option<HelperError>)
    modifies store, store.settings
    ensures notePath !in markdownPaths ==>
      err == Some(NoteNotFound(notePath))
      && store.settings.inboxes == old(store.settings.inboxes) && store.publishes == old(store.publishes)
    ensures notePath in markdownPaths ==>
      var slot := ResolveIndex(|old(store.settings.inboxes)|, index);
      if slot.None? then
        err == Some(InboxNotFound(index))
        && store.settings.inboxes == old(store.settings.inboxes) && store.publishes == old(store.publishes)
      else
        err == None
        && store.settings.inboxes == old(store.settings.inboxes)[slot.value := WithNote(old(store.settings.inboxes)[slot.value], notePath, read(notePath))]
        && store.publishes == old(store.publishes) + 1
    ensures store.settings.walkthroughStatus == old(store.settings.walkthroughStatus)
    ensures store.saveRequests == old(store.saveRequests)
  {
    if notePath !in markdownPaths {
      return Some(NoteNotFound(notePath));
    }
    var slot := ResolveIndex(|store.settings.inboxes|, index);
    if slot.None? {
      return Some(InboxNotFound(index));
    }
    var k := slot.value;
    ReplaceInbox(store, k, WithNote(store.settings.inboxes[k], notePath, read(notePath)));
    return None;
  }

  /** `setInboxFolder({ folderPath, index })`, with the vault's loaded files in `loaded`. */
  method SetInboxFolder(store: Store, loaded: seq<AbstractFile>, folderPath: string, index: int)
    returns (err: Option<HelperError>)
    modifies store, store.settings
    ensures FindFolder(loaded, folderPath).None? ==>
      err == Some(FolderNotFound(folderPath))
      && store.settings.inboxes == old(store.settings.inboxes) && store.publishes == old(store.publishes)
    ensures var folder := FindFolder(loaded, folderPath);
      folder.Some? ==>
      var slot := ResolveIndex(|old(store.settings.inboxes)|, index);
      if slot.None? then
        err == Some(InboxNotFound(index))
        && store.settings.inboxes == old(store.settings.inboxes) && store.publishes == old(store.publishes)
      else
        err == None
        && store.settings.inboxes == old(store.settings.inboxes)[slot.value := WithFolder(old(store.settings.inboxes)[slot.value], folder.value)]
        && store.publishes == old(store.publishes) + 1
    ensures store.settings.walkthroughStatus == old(store.settings.walkthroughStatus)
    ensures store.saveRequests == old(store.saveRequests)
  {
    var folder := FindFolder(loaded, folderPath);
    if folder.None? {
      return Some(FolderNotFound(folderPath));
    }
    var slot := ResolveIndex(|store.settings.inboxes|, index);
    if slot.None? {
      return Some(InboxNotFound(index));
    }
    var k := slot.value;
    ReplaceInbox(store, k, WithFolder(store.settings.inboxes[k], folder.value));
    return None;
  }

  /** After `setTrackingType` the inbox has the new type and no path; nothing else about it changes. */
  lemma TrackingTypeSet(inbox: Inbox, trackingType: TrackingType)
    ensures WithTrackingType(inbox, trackingType).trackingType == trackingType
    ensures WithTrackingType(inbox, trackingType).path == ""
    ensures WithTrackingType(inbox, trackingType).(trackingType := inbox.trackingType, path := inbox.path) == inbox
  {
  }

  /** After `setInboxNote` the inbox holds the note's path and its contents, trimmed. */
  lemma NoteSet(inbox: Inbox, notePath: string, contents: string)
    ensures var r := WithNote(inbox, notePath, contents);
      r.path == notePath && r.inboxNoteContents == Trim(contents) && Trim(r.inboxNoteContents) == r.inboxNoteContents
      && r.(path := inbox.path, inboxNoteContents := inbox.inboxNoteContents) == inbox
  {
    TrimIdempotent(contents);
  }

  /**
   * After `setInboxFolder` the inbox's list is sorted, has one entry per file
   * below the folder, and holds exactly the paths of those files; the previous
   * list is gone.
   */
  lemma FolderSet(inbox: Inbox, folder: AbstractFile)
    requires folder.Folder?
    ensures var files := WithFolder(inbox, folder).inboxFolderFiles;
      Sorted(files) && |files| == FileCount(folder)
      && (forall p :: p in files ==> exists f: AbstractFile :: f.File? && Occurs(f, folder) && f.path == p)
      && (forall f: AbstractFile :: f.File? && Occurs(f, folder) ==> f.path in files)
    ensures WithFolder(inbox, folder).path == folder.path
    ensures WithFolder(inbox, folder).(path := inbox.path, inboxFolderFiles := inbox.inboxFolderFiles) == inbox
  {
    var listing := AllFilesInFolderRecursive(folder);
    var files := Sort(listing);
    ListingLength(folder);
    assert |files| == |multiset(files)| == |multiset(listing)| == |listing|;
    forall p | p in files ensures exists f: AbstractFile :: f.File? && Occurs(f, folder) && f.path == p {
      assert p in multiset(listing);
      ListedPathsAreFiles(folder, p);
    }
    forall f: AbstractFile | f.File? && Occurs(f, folder) ensures f.path in files {
      EveryFileListed(folder, f);
      assert f.path in multiset(files);
    }
  }
}
